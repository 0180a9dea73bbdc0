/** Small shared vocabulary: optional values and weighted sums over finite maps. */
module Collections {

  const MAX_U64: nat := 0xFFFF_FFFF_FFFF_FFFF

  /** The largest `usize` of a 64-bit platform. */
  const MAX_USIZE: nat := MAX_U64

  datatype Option<+T> = None | Some(value: T)

  function Max(a: int, b: int): int {
    if a < b then b else a
  }

  function Min(a: int, b: int): int {
    if a < b then a else b
  }

  /** The sum of the weights of all values of a map. */
  ghost function Total<K, V>(m: map<K, V>, w: V -> nat): nat {
    if m == map[] then 0
    else
      var k :| k in m;
      w(m[k]) + Total(m - {k}, w)
  }

  /** The sum does not depend on the key that is split off first. */
  lemma {:induction false} TotalSplit<K, V>(m: map<K, V>, w: V -> nat, k: K)
    requires k in m
    ensures Total(m, w) == w(m[k]) + Total(m - {k}, w)
    decreases |m|
  {
    var j :| j in m && Total(m, w) == w(m[j]) + Total(m - {j}, w);
    if j != k {
      assert |m - {j}| < |m| && |m - {k}| < |m| by {
        assert (m - {j}).Keys == m.Keys - {j} && (m - {k}).Keys == m.Keys - {k};
      }
      TotalSplit(m - {j}, w, k);
      TotalSplit(m - {k}, w, j);
      assert m - {j} - {k} == m - {k} - {j};
    }
  }

  /** Writing one key moves the sum by the difference of the two weights. */
  lemma TotalUpdate<K, V>(m: map<K, V>, w: V -> nat, k: K, v: V)
    ensures Total(m[k := v], w) + (if k in m then w(m[k]) else 0) == Total(m, w) + w(v)
  {
    TotalSplit(m[k := v], w, k);
    if k in m {
      TotalSplit(m, w, k);
      assert m[k := v] - {k} == m - {k};
    } else {
      assert m[k := v] - {k} == m;
    }
  }

  /** One value never weighs more than the whole map. */
  lemma TotalMember<K, V>(m: map<K, V>, w: V -> nat, k: K)
    requires k in m
    ensures w(m[k]) <= Total(m, w)
  {
    TotalSplit(m, w, k);
  }

  /** A positive sum has a positive member. */
  lemma {:induction false} TotalWitness<K, V>(m: map<K, V>, w: V -> nat) returns (k: K)
    requires Total(m, w) > 0
    ensures k in m && w(m[k]) > 0
    decreases |m|
  {
    var j :| j in m && Total(m, w) == w(m[j]) + Total(m - {j}, w);
    if w(m[j]) > 0 {
      k := j;
    } else {
      assert |m - {j}| < |m| by { assert (m - {j}).Keys == m.Keys - {j}; }
      k := TotalWitness(m - {j}, w);
    }
  }

  /** Pointwise heavier values give a heavier sum. */
  lemma {:induction false} TotalMonotone<K, V>(m: map<K, V>, w: V -> nat, n: map<K, V>, u: V -> nat)
    requires m.Keys == n.Keys
    requires forall k :: k in m ==> w(m[k]) <= u(n[k])
    ensures Total(m, w) <= Total(n, u)
    decreases |m|
  {
    if m != map[] {
      var k :| k in m && Total(m, w) == w(m[k]) + Total(m - {k}, w);
      TotalSplit(n, u, k);
      assert (m - {k}).Keys == m.Keys - {k} == (n - {k}).Keys;
      TotalMonotone(m - {k}, w, n - {k}, u);
    } else {
      assert n == map[];
    }
  }

  /** `r` is `s` started at another place and wrapped around. */
  predicate IsRotation<T(==)>(r: seq<T>, s: seq<T>) {
    exists k :: 0 <= k <= |s| && r == s[k..] + s[..k]
  }

  /** The elements a test lets through, in order. */
  function Filter<T>(s: seq<T>, keep: T -> bool): seq<T> {
    if s == [] then []
    else if keep(s[0]) then [s[0]] + Filter(s[1..], keep)
    else Filter(s[1..], keep)
  }

  lemma {:induction false} FilterMembers<T>(s: seq<T>, keep: T -> bool, x: T)
    ensures x in Filter(s, keep) <==> x in s && keep(x)
  {
    if s == [] {
    } else {
      FilterMembers(s[1..], keep, x);
    }
  }

  lemma FilterOne<T>(x: T, keep: T -> bool)
    ensures Filter([x], keep) == if keep(x) then [x] else []
  {
    assert Filter([x][1..], keep) == [];
  }

  lemma {:induction false} FilterConcat<T>(a: seq<T>, b: seq<T>, keep: T -> bool)
    ensures Filter(a + b, keep) == Filter(a, keep) + Filter(b, keep)
  {
    if a == [] {
      assert a + b == b;
    } else {
      assert (a + b)[0] == a[0] && (a + b)[1..] == a[1..] + b;
      FilterConcat(a[1..], b, keep);
    }
  }

  lemma {:induction false} SubsetSize<T>(a: set<T>, b: set<T>)
    requires a <= b
    ensures |a| <= |b|
  {
    if a == {} {
    } else {
      var x :| x in a;
      SubsetSize(a - {x}, b - {x});
    }
  }
}
