/** The string operations the parser and the encoders use. */
module Text {

  /** `string::find`: the first position of `c`, or the length if there is none. */
  function Find(s: string, c: char): (k: nat)
    ensures k <= |s| && (k < |s| ==> s[k] == c)
  {
    if s == "" || s[0] == c then 0 else 1 + Find(s[1..], c)
  }

  lemma {:induction false} FindAfter(a: string, c: char, b: string)
    requires c !in a
    ensures Find(a + [c] + b, c) == |a|
  {
    if a == "" {
      assert a + [c] + b == [c] + b;
    } else {
      assert (a + [c] + b)[1..] == a[1..] + [c] + b;
      FindAfter(a[1..], c, b);
    }
  }

  lemma {:induction false} FindNone(s: string, c: char)
    requires c !in s
    ensures Find(s, c) == |s|
  {
    if s != "" { FindNone(s[1..], c); }
  }

  /** `Find` stops at the first occurrence. */
  lemma {:induction false} FindFirst(s: string, c: char)
    ensures c !in s[..Find(s, c)]
  {
    if s != "" && s[0] != c {
      FindFirst(s[1..], c);
      var k := Find(s, c);
      assert s[..k] == [s[0]] + s[1..][..k - 1];
    }
  }

  predicate StartsWith(s: string, p: string) {
    |p| <= |s| && s[..|p|] == p
  }

  predicate EndsWith(s: string, p: string) {
    |p| <= |s| && s[|s| - |p|..] == p
  }

  // ---- split_string ----

  /** The pieces of `s` between delimiters; a trailing delimiter ends the last piece. */
  function Split(s: string, d: char): seq<string> {
    SplitOnto([], s, d)
  }

  /** `pieces`, then the pieces of `s`. */
  function SplitOnto(pieces: seq<string>, s: string, d: char): seq<string>
    decreases |s|
  {
    if s == "" then pieces else SplitOnto(pieces + [s[..Find(s, d)]], Beyond(s, Find(s, d)), d)
  }

  /** The text after position `k`. */
  function Beyond(s: string, k: nat): (r: string)
    requires s != ""
    ensures |r| < |s|
  {
    if k < |s| then s[k + 1..] else ""
  }

  /** The text from `pos` on, which may be one past the end. */
  function From(s: string, pos: nat): string
    requires pos <= |s| + 1
  {
    if pos <= |s| then s[pos..] else ""
  }

  /** One turn of the loop of `split_string`. */
  lemma SplitTurn(pieces: seq<string>, s: string, d: char, pos: nat, newPos: nat)
    requires pos < |s| && newPos == pos + Find(From(s, pos), d)
    ensures SplitOnto(pieces, From(s, pos), d) == SplitOnto(pieces + [s[pos..newPos]], From(s, newPos + 1), d)
  {
    var left := From(s, pos);
    assert left[..newPos - pos] == s[pos..newPos];
    assert Beyond(left, newPos - pos) == From(s, newPos + 1);
  }

  method SplitString(s: string, delimiter: char) returns (pieces: seq<string>)
    ensures pieces == Split(s, delimiter)
  {
    pieces := [];
    var pos := 0;
    assert From(s, 0) == s;
    while pos < |s|
      invariant pos <= |s| + 1
      invariant SplitOnto(pieces, From(s, pos), delimiter) == Split(s, delimiter)
      decreases |s| + 1 - pos
    {
      var newPos := pos + Find(From(s, pos), delimiter);
      SplitTurn(pieces, s, delimiter, pos, newPos);
      pieces := pieces + [s[pos..newPos]];
      pos := newPos + 1;
    }
  }

  /** Each part followed by the delimiter. */
  function Terminated(parts: seq<string>, d: char): string {
    if parts == [] then "" else parts[0] + [d] + Terminated(parts[1..], d)
  }

  lemma SplitStep(pieces: seq<string>, a: string, d: char, rest: string)
    requires d !in a
    ensures SplitOnto(pieces, a + [d] + rest, d) == SplitOnto(pieces + [a], rest, d)
  {
    var s := a + [d] + rest;
    FindAfter(a, d, rest);
    assert s[..|a|] == a && Beyond(s, |a|) == rest;
  }

  lemma TerminatedTurn(pieces: seq<string>, parts: seq<string>, d: char, rest: string)
    requires parts != [] && d !in parts[0]
    ensures SplitOnto(pieces, Terminated(parts, d) + rest, d) ==
            SplitOnto(pieces + [parts[0]], Terminated(parts[1..], d) + rest, d)
  {
    var tail := Terminated(parts[1..], d) + rest;
    assert Terminated(parts, d) + rest == parts[0] + [d] + tail;
    SplitStep(pieces, parts[0], d, tail);
  }

  lemma HeadMoves<T>(a: seq<T>, b: seq<T>)
    requires b != []
    ensures a + [b[0]] + b[1..] == a + b
  {
  }

  lemma {:induction false} SplitTerminated(pieces: seq<string>, parts: seq<string>, d: char, rest: string)
    requires forall i :: 0 <= i < |parts| ==> d !in parts[i]
    ensures SplitOnto(pieces, Terminated(parts, d) + rest, d) == SplitOnto(pieces + parts, rest, d)
    decreases parts
  {
    if parts == [] {
      assert Terminated(parts, d) + rest == rest;
      assert pieces + parts == pieces;
    } else {
      TerminatedTurn(pieces, parts, d, rest);
      SplitTerminated(pieces + [parts[0]], parts[1..], d, rest);
      HeadMoves(pieces, parts);
    }
  }

  lemma {:induction false} TerminatedMore(parts: seq<string>, part: string, d: char)
    ensures Terminated(parts + [part], d) == Terminated(parts, d) + (part + [d])
  {
    if parts == [] {
      assert [part][1..] == [] && part + [d] + "" == part + [d];
    } else {
      assert (parts + [part])[1..] == parts[1..] + [part];
      TerminatedMore(parts[1..], part, d);
      Reassociate(parts[0] + [d], Terminated(parts[1..], d), part + [d]);
    }
  }

  /** `s`, with a delimiter at its end. */
  function Closed(s: string, d: char): string {
    if s == "" || s[|s| - 1] == d then s else s + [d]
  }

  lemma ClosedBehind(a: string, d: char, b: string)
    ensures a + [d] + Closed(b, d) == Closed(a + [d] + b, d)
  {
    var s := a + [d] + b;
    if b == "" {
      assert s[|s| - 1] == d && s + "" == s;
    } else {
      assert s[|s| - 1] == b[|b| - 1];
      if b[|b| - 1] != d { Reassociate(a + [d], b, [d]); }
    }
  }

  lemma FirstClosed(s: string, d: char)
    requires s != ""
    ensures s[..Find(s, d)] + [d] + Closed(Beyond(s, Find(s, d)), d) == Closed(s, d)
  {
    var k := Find(s, d);
    if k < |s| {
      CutClosed(s, d, k);
    } else {
      FindFirst(s, d);
      WholeClosed(s, d);
    }
  }

  lemma CutClosed(s: string, d: char, k: nat)
    requires k < |s| && s[k] == d
    ensures s[..k] + [d] + Closed(s[k + 1..], d) == Closed(s, d)
  {
    ClosedBehind(s[..k], d, s[k + 1..]);
    assert s[..k] + [d] + s[k + 1..] == s;
  }

  lemma WholeClosed(s: string, d: char)
    requires s != "" && d !in s[..|s|]
    ensures s[..|s|] + [d] + "" == Closed(s, d)
  {
    assert s[..|s|] == s && s[|s| - 1] in s;
  }

  /** Splitting loses nothing and cuts everywhere: each piece is free of the delimiter, and followed by one each they
      are the text again, which is given one at its end. */
  lemma {:induction false} SplitRejoins(pieces: seq<string>, s: string, d: char)
    requires forall i :: 0 <= i < |pieces| ==> d !in pieces[i]
    ensures var r := SplitOnto(pieces, s, d);
      Terminated(r, d) == Terminated(pieces, d) + Closed(s, d) && forall i :: 0 <= i < |r| ==> d !in r[i]
    decreases |s|
  {
    if s == "" {
      assert Terminated(pieces, d) + "" == Terminated(pieces, d);
    } else {
      var first, rest := s[..Find(s, d)], Beyond(s, Find(s, d));
      FindFirst(s, d);
      FirstClosed(s, d);
      SplitRejoins(pieces + [first], rest, d);
      TerminatedMore(pieces, first, d);
      Reassociate(Terminated(pieces, d), first + [d], Closed(rest, d));
    }
  }

  /** The last part needs no delimiter. */
  lemma SplitWhole(pieces: seq<string>, s: string, d: char)
    requires d !in s && s != ""
    ensures SplitOnto(pieces, s, d) == pieces + [s]
  {
    FindNone(s, d);
    assert s[..|s|] == s;
  }

  lemma SplitPair(a: string, b: string, d: char)
    requires d !in a && d !in b && b != ""
    ensures Split(a + [d] + b, d) == [a, b]
  {
    SplitStep([], a, d, b);
    SplitWhole([a], b, d);
    assert [] + [a] == [a];
  }

  lemma Reassociate<T>(a: seq<T>, b: seq<T>, c: seq<T>)
    ensures a + (b + c) == a + b + c
  {
  }

  // ---- decimal numbers ----

  predicate IsDigit(c: char) { '0' <= c <= '9' }

  predicate AllDigits(s: string) {
    forall i :: 0 <= i < |s| ==> IsDigit(s[i])
  }

  function Dec(n: nat): (s: string)
    ensures s != "" && AllDigits(s)
  {
    var c := ('0' as int + n % 10) as char;
    if n < 10 then [c] else Dec(n / 10) + [c]
  }

  /** The digits of `s` appended to the decimal `acc`. */
  function Fold(s: string, acc: int): int {
    if s == "" then acc else Fold(s[1..], 10 * acc + (s[0] as int - '0' as int))
  }

  lemma {:induction false} FoldAppend(s: string, c: char, acc: int)
    ensures Fold(s + [c], acc) == 10 * Fold(s, acc) + (c as int - '0' as int)
  {
    if s == "" {
      assert s + [c] == [c];
    } else {
      assert (s + [c])[1..] == s[1..] + [c];
      FoldAppend(s[1..], c, 10 * acc + (s[0] as int - '0' as int));
    }
  }

  lemma {:induction false} FoldDec(n: nat)
    ensures Fold(Dec(n), 0) == n
  {
    if n >= 10 {
      FoldDec(n / 10);
      FoldAppend(Dec(n / 10), ('0' as int + n % 10) as char, 0);
    }
  }

  lemma {:induction false} FoldGrows(s: string, acc: nat)
    requires AllDigits(s)
    ensures Fold(s, acc) >= acc
  {
    if s != "" {
      assert AllDigits(s[1..]);
      FoldGrows(s[1..], 10 * acc + (s[0] as int - '0' as int));
    }
  }

  /** `%02d` */
  function Dec2(n: nat): (s: string)
    ensures s != "" && AllDigits(s)
  {
    if n < 10 then "0" + Dec(n) else Dec(n)
  }

  lemma Dec2Injective(i: nat, j: nat)
    requires Dec2(i) == Dec2(j)
    ensures i == j
  {
    FoldDec2(i);
    FoldDec2(j);
  }

  lemma FoldDec2(n: nat)
    ensures Fold(Dec2(n), 0) == n
  {
    FoldDec(n);
    if n < 10 {
      assert ("0" + Dec(n))[1..] == Dec(n);
    }
  }
}
