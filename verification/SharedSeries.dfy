/** Types that can share a series: data of type `n` is kept under `n`, or under the name of the instance that was first
    heard of. `bound` limits which instances these can be: all 256, or only instance 0. */
module SharedSeries {
  import opened Bytes
  import opened Outcomes
  import opened Layout
  import LayoutTheorems
  import opened Parser
  import opened TypeCollisions

  const INSTANCES := 256

  /** The bytes a sample of type `n` needs behind its timestamp. */
  function SampleSize(fm: Formats, n: string): int
    requires n in fm
  {
    var slots := Flatten(fm, fm.Keys, fm[n].fields);
    if slots.Ok? then Size(slots.value) else 0
  }

  /** Samples of type `n` can be stored: its name and its layout fit the messages. */
  predicate Storable(fm: Formats, n: string) {
    n in fm && IsByteText(n) && |n| <= 255 && 8 + SampleSize(fm, n) <= 1500
  }

  function Columns(fm: Formats, n: string): nat
    requires n in fm
  {
    if Shape(fm, n).Ok? then |Shape(fm, n).value| else 0
  }

  /** `ts` is a name under which data of type `n` can be kept. */
  ghost predicate Under(ts: string, n: string, bound: nat) {
    ts == n || exists k :: 0 <= k < bound && ts == Suffixed(n, k)
  }

  /** No storable type is named like an instance of another with more or fewer columns. */
  ghost predicate NoClash(fm: Formats, bound: nat) {
    forall m, k :: Storable(fm, m) && 0 <= k < bound && Storable(fm, Suffixed(m, k)) ==>
      Columns(fm, m) == Columns(fm, Suffixed(m, k))
  }

  /** No storable type is named like an instance of another with other columns. */
  ghost predicate NoMixup(fm: Formats, bound: nat) {
    forall m, k :: Storable(fm, m) && 0 <= k < bound && Storable(fm, Suffixed(m, k)) ==>
      Shape(fm, m) == Shape(fm, Suffixed(m, k))
  }

  /** Every series has as many columns as the types whose data can be kept under its name. */
  ghost predicate Counted(p: Parser, bound: nat) {
    forall ts, n :: ts in p.timeseries && Storable(p.formats, n) && Under(ts, n, bound) ==>
      |p.timeseries[ts].data| == Columns(p.formats, n)
  }

  /** Every series has the columns of the types whose data can be kept under its name. */
  ghost predicate Kept(p: Parser, bound: nat) {
    forall ts, n :: ts in p.timeseries && Storable(p.formats, n) && Under(ts, n, bound) ==>
      Shape(p.formats, n) == Ok(NamesOf(p.timeseries[ts].data))
  }

  /** Of two types whose data can share a series one is named like an instance of the other. */
  lemma OwnersRelated(ts: string, m: string, n: string, bound: nat)
    requires Under(ts, m, bound) && Under(ts, n, bound) && m != n
    ensures exists k :: 0 <= k < bound && (m == Suffixed(n, k) || n == Suffixed(m, k))
  {
    if ts != m {
      var j :| 0 <= j < bound && ts == Suffixed(m, j);
      if ts != n {
        var k :| 0 <= k < bound && ts == Suffixed(n, k);
        SuffixInjective(m, n, j, k);
      }
    }
  }

  lemma OwnersCount(fm: Formats, ts: string, m: string, n: string, bound: nat)
    requires NoClash(fm, bound) && Storable(fm, m) && Storable(fm, n) && Under(ts, m, bound) && Under(ts, n, bound)
    ensures Columns(fm, m) == Columns(fm, n)
  {
    if m != n { OwnersRelated(ts, m, n, bound); }
  }

  lemma OwnersAgree(fm: Formats, ts: string, m: string, n: string, bound: nat)
    requires NoMixup(fm, bound) && Storable(fm, m) && Storable(fm, n) && Under(ts, m, bound) && Under(ts, n, bound)
    ensures Shape(fm, m) == Shape(fm, n)
  {
    if m != n { OwnersRelated(ts, m, n, bound); }
  }

  lemma NoMixupNoClash(fm: Formats, bound: nat)
    requires NoMixup(fm, bound)
    ensures NoClash(fm, bound)
  {
    forall m, k | Storable(fm, m) && 0 <= k < bound && Storable(fm, Suffixed(m, k))
      ensures Columns(fm, m) == Columns(fm, Suffixed(m, k))
    {
      assert Shape(fm, m) == Shape(fm, Suffixed(m, k));
    }
  }

  lemma NamesCount(data: seq<Column>)
    ensures |NamesOf(data)| == |data|
  {
  }

  lemma FilledCount(p: Parser, name: string, n: string, message: seq<byte>)
    requires n in p.formats && FillSeries(p, name, p.formats[n], message).Ok?
    ensures |FillSeries(p, name, p.formats[n], message).value.timeseries[name].data| ==
            |SeriesColumns(p, name, p.formats[n]).value|
  {
    FilledNames(p, name, p.formats[n], message);
    NamesCount(SeriesColumns(p, name, p.formats[n]).value);
    NamesCount(FillSeries(p, name, p.formats[n], message).value.timeseries[name].data);
  }

  /** Storing a sample keeps the counts. */
  lemma FillCounted(p: Parser, rank: map<string, nat>, n: string, ts: string, message: seq<byte>, bound: nat)
    requires LayoutTheorems.Ranked(p.formats, rank) && Counted(p, bound) && NoClash(p.formats, bound)
    requires Storable(p.formats, n) && Under(ts, n, bound) && FillSeries(p, ts, p.formats[n], message).Ok?
    ensures Counted(FillSeries(p, ts, p.formats[n], message).value, bound)
  {
    var q := FillSeries(p, ts, p.formats[n], message).value;
    LayoutTheorems.NamesDefined(p.formats, rank, p.formats.Keys, p.formats[n].fields, "", rank[n]);
    FilledCount(p, ts, n, message);
    forall m | Storable(p.formats, m) && Under(ts, m, bound)
      ensures |q.timeseries[ts].data| == Columns(p.formats, m)
    {
      OwnersCount(p.formats, ts, n, m, bound);
    }
  }

  /** And, without mix-ups, the columns. */
  lemma FillKept(p: Parser, n: string, ts: string, message: seq<byte>, bound: nat)
    requires Kept(p, bound) && NoMixup(p.formats, bound)
    requires Storable(p.formats, n) && Under(ts, n, bound) && FillSeries(p, ts, p.formats[n], message).Ok?
    ensures Kept(FillSeries(p, ts, p.formats[n], message).value, bound)
  {
    var q := FillSeries(p, ts, p.formats[n], message).value;
    FilledNames(p, ts, p.formats[n], message);
    if ts !in p.timeseries { NamesOfEmpty(Shape(p.formats, n)); }
    forall m | Storable(p.formats, m) && Under(ts, m, bound)
      ensures Shape(p.formats, m) == Ok(NamesOf(q.timeseries[ts].data))
    {
      OwnersAgree(p.formats, ts, n, m, bound);
    }
  }
}
