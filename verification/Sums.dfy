/** Sums over the values of a finite map, in no particular order. */
module Sums {

  ghost function Sum(m: map<string, int>): int
    decreases |m|
  {
    if m == map[] then 0
    else
      var k :| k in m.Keys;
      m[k] + Sum(m - {k})
  }

  lemma {:induction false} SumWithout(m: map<string, int>, k: string)
    requires k in m
    ensures Sum(m) == m[k] + Sum(m - {k})
    decreases |m|
  {
    var j :| j in m.Keys && Sum(m) == m[j] + Sum(m - {j});
    if j != k {
      SumWithout(m - {j}, k);
      SumWithout(m - {k}, j);
      assert m - {j} - {k} == m - {k} - {j};
    }
  }

  lemma SumPlus(m: map<string, int>, k: string, v: int)
    requires k !in m
    ensures Sum(m[k := v]) == Sum(m) + v
  {
    SumWithout(m[k := v], k);
    assert m[k := v] - {k} == m;
  }

  lemma SumReplaced(m: map<string, int>, n: map<string, int>, k: string)
    requires k in m && n.Keys == m.Keys && forall j :: j in m && j != k ==> n[j] == m[j]
    ensures Sum(n) == Sum(m) - m[k] + n[k]
  {
    SumWithout(m, k);
    SumWithout(n, k);
    assert m - {k} == n - {k};
  }

  lemma {:induction false} SumAdds(a: map<string, int>, b: map<string, int>, c: map<string, int>)
    requires a.Keys == b.Keys == c.Keys && forall k :: k in a ==> c[k] == a[k] + b[k]
    ensures Sum(c) == Sum(a) + Sum(b)
    decreases |a|
  {
    if a == map[] {
      assert b == map[] && c == map[];
    } else {
      var k :| k in a;
      SumWithout(a, k);
      SumWithout(b, k);
      SumWithout(c, k);
      SumAdds(a - {k}, b - {k}, c - {k});
    }
  }

  /** Entries that are zero can be left out. */
  lemma {:induction false} SumOfPart(m: map<string, int>, part: map<string, int>)
    requires part.Keys <= m.Keys && forall k :: k in m ==> m[k] == if k in part then part[k] else 0
    ensures Sum(m) == Sum(part)
    decreases |m|
  {
    if m == map[] {
      assert part == map[];
    } else {
      var k :| k in m;
      SumWithout(m, k);
      if k in part {
        SumWithout(part, k);
        SumOfPart(m - {k}, part - {k});
      } else {
        SumOfPart(m - {k}, part);
      }
    }
  }

  lemma {:induction false} SumIsNonNegative(m: map<string, int>)
    requires forall k :: k in m ==> m[k] >= 0
    ensures Sum(m) >= 0
    decreases |m|
  {
    if m != map[] {
      var k :| k in m;
      SumWithout(m, k);
      SumIsNonNegative(m - {k});
    }
  }

  lemma {:induction false} SumIsZeroIff(m: map<string, int>)
    requires forall k :: k in m ==> m[k] >= 0
    ensures Sum(m) == 0 <==> forall k :: k in m ==> m[k] == 0
    decreases |m|
  {
    if m != map[] {
      var k :| k in m;
      SumWithout(m, k);
      SumIsNonNegative(m - {k});
      SumIsZeroIff(m - {k});
      assert forall j :: j in m && j != k ==> j in m - {k} && (m - {k})[j] == m[j];
    }
  }
}
