/** Shared by the models: rounding, bounds, sums over the entries of a map, and a few facts about sequences. */
module Numeric {

  function Min(a: int, b: int): int {
    if a <= b then a else b
  }

  function Max(a: int, b: int): int {
    if a >= b then a else b
  }

  function MinReal(a: real, b: real): real {
    if a <= b then a else b
  }

  function MaxReal(a: real, b: real): real {
    if a >= b then a else b
  }

  function AbsReal(x: real): real {
    if x >= 0.0 then x else -x
  }

  /** `llround`: the nearest integer, halves away from zero. */
  function Round(x: real): (n: int)
    ensures AbsReal(x - n as real) <= 0.5
    ensures x >= 0.0 ==> n >= 0
    ensures x <= 0.0 ==> n <= 0
  {
    if x >= 0.0 then (x + 0.5).Floor else -((-x + 0.5).Floor)
  }

  function Ceil(x: real): int {
    -((-x).Floor)
  }

  /** Sum of the values of a map, whatever the order of its keys. */
  ghost function Total<K>(m: map<K, int>): int
  {
    if m == map[] then 0 else var k :| k in m; m[k] + Total(m - {k})
  }

  lemma {:induction false} TotalRemove<K>(m: map<K, int>, k: K)
    requires k in m
    ensures Total(m) == m[k] + Total(m - {k})
    decreases |m|
  {
    var first :| first in m && Total(m) == m[first] + Total(m - {first});
    if first != k {
      TotalRemove(m - {first}, k);
      TotalRemove(m - {k}, first);
      assert m - {first} - {k} == m - {k} - {first};
    }
  }

  lemma TotalUpdate<K>(m: map<K, int>, k: K, v: int)
    ensures Total(m[k := v]) == Total(m) - (if k in m then m[k] else 0) + v
  {
    TotalRemove(m[k := v], k);
    assert m[k := v] - {k} == m - {k};
    if k in m {
      TotalRemove(m, k);
    } else {
      assert m - {k} == m;
    }
  }

  /** Sums over the same keys add up entry by entry. */
  lemma {:induction false} TotalAdds<K>(a: map<K, int>, b: map<K, int>, c: map<K, int>)
    requires a.Keys == c.Keys && b.Keys == c.Keys
    requires forall k :: k in c ==> c[k] == a[k] + b[k]
    ensures Total(c) == Total(a) + Total(b)
    decreases |c|
  {
    if c == map[] {
      assert a == map[] && b == map[];
    } else {
      var k :| k in c;
      TotalRemove(a, k);
      TotalRemove(b, k);
      TotalRemove(c, k);
      TotalAdds(a - {k}, b - {k}, c - {k});
    }
  }

  /** A sum splits into the entries under some keys and the rest. */
  lemma {:induction false} TotalSplit<K>(m: map<K, int>, keys: set<K>)
    ensures Total(m) == Total(map k | k in m && k in keys :: m[k]) + Total(m - keys)
    decreases |m|
  {
    var inside := map k | k in m && k in keys :: m[k];
    if m == map[] {
      assert inside == map[] && m - keys == map[];
    } else {
      var k :| k in m;
      TotalRemove(m, k);
      TotalSplit(m - {k}, keys);
      if k in keys {
        TotalRemove(inside, k);
        assert inside - {k} == map j | j in m - {k} && j in keys :: (m - {k})[j];
        assert m - {k} - keys == m - keys;
      } else {
        TotalRemove(m - keys, k);
        assert inside == map j | j in m - {k} && j in keys :: (m - {k})[j];
        assert m - {k} - keys == m - keys - {k};
      }
    }
  }

  lemma {:induction false} TotalOfZeros<K>(m: map<K, int>)
    requires forall k :: k in m ==> m[k] == 0
    ensures Total(m) == 0
    decreases |m|
  {
    if m != map[] {
      var k :| k in m;
      TotalRemove(m, k);
      TotalOfZeros(m - {k});
    }
  }

  /** One entry of a sum of non-negative numbers is at most the sum. */
  lemma {:induction false} TotalAtLeast<K>(m: map<K, int>, k: K)
    requires k in m && forall j :: j in m ==> m[j] >= 0
    ensures 0 <= m[k] <= Total(m)
    decreases |m|
  {
    TotalRemove(m, k);
    TotalNonNegative(m - {k});
  }

  lemma {:induction false} TotalNonNegative<K>(m: map<K, int>)
    requires forall j :: j in m ==> m[j] >= 0
    ensures Total(m) >= 0
    decreases |m|
  {
    if m != map[] {
      var k :| k in m;
      TotalRemove(m, k);
      TotalNonNegative(m - {k});
    }
  }

  /** The same sum over amounts of money. */
  ghost function TotalReal<K>(m: map<K, real>): real
  {
    if m == map[] then 0.0 else var k :| k in m; m[k] + TotalReal(m - {k})
  }

  lemma {:induction false} TotalRealRemove<K>(m: map<K, real>, k: K)
    requires k in m
    ensures TotalReal(m) == m[k] + TotalReal(m - {k})
    decreases |m|
  {
    var first :| first in m && TotalReal(m) == m[first] + TotalReal(m - {first});
    if first != k {
      TotalRealRemove(m - {first}, k);
      TotalRealRemove(m - {k}, first);
      assert m - {first} - {k} == m - {k} - {first};
    }
  }

  lemma TotalRealUpdate<K>(m: map<K, real>, k: K, v: real)
    ensures TotalReal(m[k := v]) == TotalReal(m) - (if k in m then m[k] else 0.0) + v
  {
    TotalRealRemove(m[k := v], k);
    assert m[k := v] - {k} == m - {k};
    if k in m {
      TotalRealRemove(m, k);
    } else {
      assert m - {k} == m;
    }
  }

  // ---- Sequences ----

  lemma Associates<T>(a: seq<T>, b: seq<T>, c: seq<T>)
    ensures (a + b) + c == a + (b + c)
  {
  }

  lemma NothingAdded<T>(s: seq<T>)
    ensures s + [] == s && [] + s == s
  {
  }

  lemma OneMore<T>(a: seq<T>, x: T)
    ensures (a + [x])[..|a|] == a && (a + [x])[|a|] == x
  {
  }

  lemma Suffixes<T>(a: seq<T>, b: seq<T>, c: seq<T>)
    requires a <= b <= c
    ensures c[|a|..] == b[|a|..] + c[|b|..] && c == a + c[|a|..] && a[|a|..] == []
  {
  }
}
