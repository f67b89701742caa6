/** The id tables over every sequence of calls. */
module Allocation {
  import Encoder

  /** The names in the order in which they first asked for an id. */
  function FirstSeen(names: seq<string>): seq<string> {
    if names == [] then []
    else
      var before := FirstSeen(names[..|names| - 1]);
      var name := names[|names| - 1];
      if name in before then before else before + [name]
  }

  /** The table after `get_id` for each name in turn. */
  function AfterCalls(names: seq<string>, modulus: nat): Encoder.Ids
    requires modulus > 0
  {
    if names == [] then Encoder.NO_IDS
    else Encoder.WithId(AfterCalls(names[..|names| - 1], modulus), names[|names| - 1], modulus)
  }

  predicate Injective(ids: map<string, nat>) {
    forall a, b :: a in ids && b in ids && ids[a] == ids[b] ==> a == b
  }

  predicate NoRepeats(names: seq<string>) {
    forall i, j :: 0 <= i < j < |names| ==> names[i] != names[j]
  }

  /** `t` gives the names of `order` the ids 0, 1, 2, ... modulo the width of the counter. */
  ghost predicate Sequential(t: Encoder.Ids, order: seq<string>, modulus: nat)
    requires modulus > 0
  {
    && NoRepeats(order) && t.cntr == |order| % modulus
    && (forall n :: n in t.ids <==> n in order)
    && (forall k :: 0 <= k < |order| ==> order[k] in t.ids && t.ids[order[k]] == k % modulus)
  }

  lemma {:induction false} CallsAreSequential(names: seq<string>, modulus: nat)
    requires modulus > 0
    ensures Sequential(AfterCalls(names, modulus), FirstSeen(names), modulus)
  {
    if names != [] {
      CallsAreSequential(names[..|names| - 1], modulus);
      WithIdSequential(AfterCalls(names[..|names| - 1], modulus), FirstSeen(names[..|names| - 1]),
                       names[|names| - 1], modulus);
    }
  }

  lemma NextCount(n: nat, modulus: nat)
    requires modulus > 0
    ensures (n % modulus + 1) % modulus == (n + 1) % modulus
  {
    var q, r := n / modulus, n % modulus;
    assert n == q * modulus + r;
    if r + 1 < modulus {
      Remainder(n + 1, q, r + 1, modulus);
      Remainder(r + 1, 0, r + 1, modulus);
    } else {
      Remainder(n + 1, q + 1, 0, modulus);
      Remainder(r + 1, 1, 0, modulus);
    }
  }

  lemma Remainder(n: int, q: int, r: int, modulus: int)
    requires 0 <= r < modulus && n == q * modulus + r
    ensures n % modulus == r
  {
    var d := n / modulus - q;
    assert n - q * modulus == (n / modulus) * modulus + n % modulus - q * modulus == d * modulus + n % modulus;
  }

  lemma WithIdSequential(t: Encoder.Ids, order: seq<string>, name: string, modulus: nat)
    requires modulus > 0 && Sequential(t, order, modulus)
    ensures Sequential(Encoder.WithId(t, name, modulus), if name in order then order else order + [name], modulus)
  {
    if name !in order { NextCount(|order|, modulus); }
  }

  /** Ids are stable: a later call never changes one given out. */
  lemma {:induction false} IdsStable(names: seq<string>, more: seq<string>, name: string, modulus: nat)
    requires modulus > 0 && name in AfterCalls(names, modulus).ids
    ensures name in AfterCalls(names + more, modulus).ids
    ensures AfterCalls(names + more, modulus).ids[name] == AfterCalls(names, modulus).ids[name]
  {
    if more == [] {
      assert names + more == names;
    } else {
      var all := names + more;
      assert all[..|all| - 1] == names + more[..|more| - 1];
      IdsStable(names, more[..|more| - 1], name, modulus);
    }
  }

  /** Ids tell the names apart over a whole sequence of calls if and only if no more distinct names were used
      than the counter has values. */
  lemma IdsInjectiveIff(names: seq<string>, modulus: nat)
    requires modulus > 0
    ensures Injective(AfterCalls(names, modulus).ids) <==> |FirstSeen(names)| <= modulus
  {
    CallsAreSequential(names, modulus);
    var t, order := AfterCalls(names, modulus), FirstSeen(names);
    if |order| <= modulus {
      forall a, b | a in t.ids && b in t.ids && t.ids[a] == t.ids[b] ensures a == b {
        var i :| 0 <= i < |order| && order[i] == a;
        var j :| 0 <= j < |order| && order[j] == b;
        Remainder(i, 0, i, modulus);
        Remainder(j, 0, j, modulus);
      }
    } else {
      Remainder(modulus, 1, 0, modulus);
      assert t.ids[order[0]] == 0 % modulus == t.ids[order[modulus]];
      assert order[0] != order[modulus];
    }
  }

  // ---- few names ----

  lemma {:induction false} SeenNamed(names: seq<string>, among: set<string>)
    requires forall n :: n in names ==> n in among
    ensures forall n :: n in FirstSeen(names) ==> n in among
  {
    if names != [] { SeenNamed(names[..|names| - 1], among); }
  }

  lemma {:induction false} DistinctAtMost(s: seq<string>, among: set<string>)
    requires NoRepeats(s) && forall n :: n in s ==> n in among
    ensures |s| <= |among|
  {
    if s != [] {
      var n := |s| - 1;
      DistinctAtMost(s[..n], among - {s[n]});
    }
  }

  lemma FewNames(names: seq<string>, among: set<string>)
    requires forall n :: n in names ==> n in among
    ensures |FirstSeen(names)| <= |among|
  {
    SeenNamed(names, among);
    CallsAreSequential(names, 1);
    DistinctAtMost(FirstSeen(names), among);
  }
}
