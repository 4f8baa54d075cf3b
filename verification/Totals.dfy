/** Sums over finite maps, independent of the order in which a hash map is walked. */
module Totals {

  ghost function Total(m: map<nat, real>): real
    decreases |m|
  {
    if m == map[] then 0.0
    else
      var k :| k in m;
      m[k] + Total(m - {k})
  }

  ghost predicate Nonnegative(m: map<nat, real>) {
    forall k :: k in m ==> m[k] >= 0.0
  }

  ghost function At(m: map<nat, real>, k: nat): real {
    if k in m then m[k] else 0.0
  }

  /** Any key can be taken out first. */
  lemma {:induction false} TotalRemove(m: map<nat, real>, k: nat)
    requires k in m
    ensures Total(m) == m[k] + Total(m - {k})
    decreases |m|
  {
    var c :| c in m && Total(m) == m[c] + Total(m - {c});
    if c != k {
      TotalRemove(m - {c}, k);
      TotalRemove(m - {k}, c);
      assert m - {c} - {k} == m - {k} - {c};
    }
  }

  lemma TotalInsert(m: map<nat, real>, k: nat, x: real)
    requires k !in m
    ensures Total(m[k := x]) == x + Total(m)
  {
    TotalRemove(m[k := x], k);
    assert m[k := x] - {k} == m;
  }

  lemma {:induction false} TotalNonnegative(m: map<nat, real>)
    requires Nonnegative(m)
    ensures Total(m) >= 0.0
    decreases |m|
  {
    if m != map[] {
      var k :| k in m;
      TotalRemove(m, k);
      TotalNonnegative(m - {k});
    }
  }

  /** If every entry is covered by two nonnegative maps together, so is the total. */
  lemma {:induction false} TotalCover(m: map<nat, real>, a: map<nat, real>, b: map<nat, real>)
    requires Nonnegative(a) && Nonnegative(b)
    requires forall k :: k in m ==> m[k] <= At(a, k) + At(b, k)
    ensures Total(m) <= Total(a) + Total(b)
    decreases |m|
  {
    TotalNonnegative(a);
    TotalNonnegative(b);
    if m != map[] {
      var k :| k in m;
      TotalRemove(m, k);
      if k in a { TotalRemove(a, k); } else { assert a - {k} == a; }
      if k in b { TotalRemove(b, k); } else { assert b - {k} == b; }
      TotalCover(m - {k}, a - {k}, b - {k});
    }
  }

  lemma TotalMono(m: map<nat, real>, a: map<nat, real>)
    requires Nonnegative(a)
    requires forall k :: k in m ==> m[k] <= At(a, k)
    ensures Total(m) <= Total(a)
  {
    TotalCover(m, a, map[]);
  }

  /** A map that is the entrywise sum of two others has the sum of their totals. */
  lemma {:induction false} TotalSplit(m: map<nat, real>, a: map<nat, real>, b: map<nat, real>)
    requires a.Keys <= m.Keys && b.Keys <= m.Keys
    requires forall k :: k in m ==> m[k] == At(a, k) + At(b, k)
    ensures Total(m) == Total(a) + Total(b)
    decreases |m|
  {
    if m == map[] {
      assert a == map[] && b == map[];
    } else {
      var k :| k in m;
      TotalRemove(m, k);
      if k in a { TotalRemove(a, k); } else { assert a - {k} == a; }
      if k in b { TotalRemove(b, k); } else { assert b - {k} == b; }
      TotalSplit(m - {k}, a - {k}, b - {k});
    }
  }

  /** A total of zeros and ones counts the ones. */
  lemma {:induction false} TotalCounts(m: map<nat, real>, ones: set<nat>)
    requires ones <= m.Keys
    requires forall k :: k in m ==> m[k] == if k in ones then 1.0 else 0.0
    ensures Total(m) == |ones| as real
    decreases |m|
  {
    if m != map[] {
      var k :| k in m;
      TotalRemove(m, k);
      TotalCounts(m - {k}, ones - {k});
      assert k in ones ==> |ones - {k}| == |ones| - 1;
      assert k !in ones ==> ones - {k} == ones;
    }
  }

  /** A total of whole numbers is a whole number. */
  lemma {:induction false} TotalWhole(m: map<nat, real>, ints: map<nat, int>) returns (n: int)
    requires forall k :: k in m ==> k in ints && m[k] == ints[k] as real
    ensures Total(m) == n as real
    decreases |m|
  {
    n := 0;
    if m != map[] {
      var k :| k in m;
      TotalRemove(m, k);
      var rest := TotalWhole(m - {k}, ints);
      n := ints[k] + rest;
    }
  }
}
