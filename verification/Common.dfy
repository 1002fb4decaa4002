/** Small values shared by every module. */
module Common {

  datatype Option<+T> = None | Some(value: T)

  function Max(a: int, b: int): int {
    if a < b then b else a
  }

  function Min(a: int, b: int): int {
    if a < b then a else b
  }

  /** A subset is no larger than the set that contains it. */
  lemma {:induction false} SubsetSize<T>(a: set<T>, b: set<T>)
    requires a <= b
    ensures |a| <= |b|
  {
    if a != {} {
      var x :| x in a;
      SubsetSize(a - {x}, b - {x});
    }
  }

  /** A subset that misses one element is strictly smaller. */
  lemma StrictSubsetSize<T>(a: set<T>, b: set<T>, missing: T)
    requires a <= b && missing in b && missing !in a
    ensures |a| < |b|
  {
    SubsetSize(a, b - {missing});
  }

  ghost function Sum<K>(m: map<K, int>): int {
    if m == map[] then 0
    else
      var key :| key in m;
      m[key] + Sum(m - {key})
  }

  /** The sum does not depend on the order of the keys. */
  lemma {:induction false} SumSplit<K>(m: map<K, int>, key: K)
    requires key in m
    ensures Sum(m) == m[key] + Sum(m - {key})
  {
    var first :| first in m && Sum(m) == m[first] + Sum(m - {first});
    if first != key {
      SumSplit(m - {first}, key);
      SumSplit(m - {key}, first);
      assert m - {first} - {key} == m - {key} - {first};
    }
  }

  /** One entry grows, or appears. */
  lemma SumGrows<K>(m: map<K, int>, after: map<K, int>, key: K, more: int)
    requires after.Keys == m.Keys + {key}
    requires after[key] == (if key in m then m[key] else 0) + more
    requires forall other :: other in m && other != key ==> after[other] == m[other]
    ensures Sum(after) == Sum(m) + more
  {
    SumSplit(after, key);
    assert after - {key} == m - {key};
    if key in m {
      SumSplit(m, key);
    } else {
      assert m - {key} == m;
    }
  }
}
