/** Small shared vocabulary: optional values, results and bounded integers. */
module Prelude {
  datatype Option<+T> = None | Some(value: T)

  datatype Result<+T, +E> = Ok(value: T) | Err(error: E)

  const I32_MIN: int := -0x8000_0000
  const I32_MAX: int := 0x7fff_ffff
  const I64_MAX: int := 0x7fff_ffff_ffff_ffff
  const U64_MAX: int := 0xffff_ffff_ffff_ffff

  type i32 = x: int | I32_MIN <= x <= I32_MAX
  type u64 = x: int | 0 <= x <= U64_MAX
}

/** Lists seen as multisets. */
module Lists {
  lemma RestOfList<T>(s: seq<T>)
    requires s != []
    ensures multiset(s) == multiset{s[0]} + multiset(s[1..])
  {
    assert s == [s[0]] + s[1..];
  }

  lemma FirstIsIn<T>(a: seq<T>, b: seq<T>)
    requires multiset(a) == multiset(b) && a != []
    ensures b != [] && a[0] in b
  {
    assert a[0] in multiset(a);
  }

  lemma RestsAgree<T>(a: seq<T>, b: seq<T>)
    requires a != [] && b != [] && a[0] == b[0] && multiset(a) == multiset(b)
    ensures multiset(a[1..]) == multiset(b[1..])
  {
    RestOfList(a);
    RestOfList(b);
    assert multiset(a[1..]) == multiset(a) - multiset{a[0]} == multiset(b[1..]);
  }

  lemma OneMore<T>(s: seq<T>, i: nat)
    requires i < |s|
    ensures multiset(s[..i + 1]) == multiset(s[..i]) + multiset{s[i]}
  {
    assert s[..i + 1] == s[..i] + [s[i]];
  }
}

/** Sums over finite maps, used to state conservation of stock. */
module Sums {
  ghost function Pick<K>(s: set<K>): K
    requires s != {}
  {
    var k :| k in s; k
  }

  lemma {:induction false} SubsetSize<T>(a: set<T>, b: set<T>)
    requires a <= b
    ensures |a| <= |b|
  {
    if x :| x in a {
      SubsetSize(a - {x}, b - {x});
    }
  }

  /** A subset of the same size is the whole set. */
  lemma SmallSubset<T>(a: set<T>, b: set<T>)
    requires a <= b && |a| == |b|
    ensures a == b
  {
    if x :| x in b && x !in a {
      assert a <= b - {x};
      SubsetSize(a, b - {x});
    }
  }

  lemma {:induction false} UpperBound(used: set<nat>) returns (n: nat)
    ensures forall x :: x in used ==> x < n
    decreases |used|
  {
    if used == {} {
      n := 0;
    } else {
      var k :| k in used;
      var m := UpperBound(used - {k});
      n := if k < m then m else k + 1;
      assert forall x :: x in used ==> x == k || x in used - {k};
    }
  }

  /** The sum of all values of a map. */
  ghost function Sum<K>(m: map<K, int>): int
    decreases |m|
  {
    if m == map[] then 0
    else
      var k := Pick(m.Keys);
      assert |m - {k}| < |m| by { RemoveShrinks(m, k); }
      m[k] + Sum(m - {k})
  }

  lemma RemoveShrinks<K, V>(m: map<K, V>, k: K)
    requires k in m
    ensures |m - {k}| == |m| - 1
  {
    assert (m - {k}).Keys == m.Keys - {k};
    assert |m - {k}| == |(m - {k}).Keys|;
    assert |m| == |m.Keys|;
  }

  /** Any key may be taken out first: the sum does not depend on the order of summation. */
  lemma {:induction false} SumRemove<K>(m: map<K, int>, k: K)
    requires k in m
    ensures Sum(m) == m[k] + Sum(m - {k})
    decreases |m|
  {
    var first := Pick(m.Keys);
    if first != k {
      RemoveShrinks(m, first);
      SumRemove(m - {first}, k);
      RemoveShrinks(m, k);
      SumRemove(m - {k}, first);
      assert m - {first} - {k} == m - {k} - {first};
    }
  }

  /** Writing one key changes the sum by the difference of the two values. */
  lemma SumUpdate<K>(m: map<K, int>, k: K, v: int)
    ensures Sum(m[k := v]) == Sum(m) - (if k in m then m[k] else 0) + v
  {
    SumRemove(m[k := v], k);
    if k in m {
      SumRemove(m, k);
      assert m[k := v] - {k} == m - {k};
    } else {
      assert m[k := v] - {k} == m;
    }
  }

  /** A pointwise smaller map over the same keys has the smaller sum. */
  lemma {:induction false} SumMonotone<K>(a: map<K, int>, b: map<K, int>)
    requires a.Keys == b.Keys
    requires forall k :: k in a ==> a[k] <= b[k]
    ensures Sum(a) <= Sum(b)
    decreases |a|
  {
    if a != map[] {
      var k := Pick(a.Keys);
      RemoveShrinks(a, k);
      SumRemove(a, k);
      SumRemove(b, k);
      SumMonotone(a - {k}, b - {k});
    }
  }

  /** Renaming keys one to one, and leaving out zeros, keeps the sum. */
  lemma {:induction false} SumReindex<K, L>(a: map<K, int>, b: map<L, int>, name: map<K, L>)
    requires name.Keys <= a.Keys && name.Values == b.Keys
    requires forall j, k :: j in name && k in name && j != k ==> name[j] != name[k]
    requires forall k :: k in a ==> a[k] == if k in name then b[name[k]] else 0
    ensures Sum(a) == Sum(b)
    decreases |a|
  {
    if a == map[] {
      assert name.Values == {};
    } else {
      var k := Pick(a.Keys);
      SumRemove(a, k);
      RemoveShrinks(a, k);
      if k in name {
        SumRemove(b, name[k]);
        RenameRest(name, k);
        SumReindex(a - {k}, b - {name[k]}, name - {k});
      } else {
        SumReindex(a - {k}, b, name);
      }
    }
  }

  lemma RenameRest<K, L>(name: map<K, L>, k: K)
    requires k in name
    requires forall i, j :: i in name && j in name && i != j ==> name[i] != name[j]
    ensures (name - {k}).Values == name.Values - {name[k]}
  {
    forall v | v in name.Values - {name[k]} ensures v in (name - {k}).Values {
      var j :| j in name && name[j] == v;
      assert j in name - {k} && (name - {k})[j] == v;
    }
  }
}
