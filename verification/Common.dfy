/** Small definitions shared by the models. */
module Common {

  datatype Option<T> = None | Some(value: T)

  /** An arbitrary element: iteration over a set or map has no order of its own. */
  method Choose<T>(s: set<T>) returns (x: T)
    requires s != {}
    ensures x in s
  {
    x :| x in s;
  }

  lemma OnlyKey<K, V>(m: map<K, V>, k: K)
    requires k in m
    ensures m - {k} == map[] <==> m.Keys == {k}
  {
    if m - {k} == map[] {
      forall x | x in m ensures x == k { assert x != k ==> x in m - {k}; }
    }
    if m.Keys == {k} { assert (m - {k}).Keys == {}; }
  }

  ghost function SumMap<K, V>(m: map<K, V>, f: V -> nat): nat
    decreases m.Keys
  {
    if m == map[] then 0
    else
      var k :| k in m;
      SumMap(m - {k}, f) + f(m[k])
  }

  lemma {:induction false} SumMapRemove<K, V>(m: map<K, V>, f: V -> nat, k: K)
    requires k in m
    ensures SumMap(m, f) == SumMap(m - {k}, f) + f(m[k])
    decreases m.Keys
  {
    var x :| x in m && SumMap(m, f) == SumMap(m - {x}, f) + f(m[x]);
    if x != k {
      SumMapRemove(m - {x}, f, k);
      SumMapRemove(m - {k}, f, x);
      assert m - {x} - {k} == m - {k} - {x};
    }
  }

  lemma Assoc<T>(a: seq<T>, b: seq<T>, c: seq<T>)
    ensures a + b + c == a + (b + c)
  {}

  /** Cutting the last element off `a + c`. */
  lemma CutLast<T>(a: seq<T>, c: seq<T>)
    requires c != []
    ensures a + c != [] && (a + c)[..|a + c| - 1] == a + c[..|c| - 1] && (a + c)[|a + c| - 1] == c[|c| - 1]
  {}

  lemma ModUnique(x: int, q: int, r: int, k: int)
    requires x == q * k + r && 0 <= r < k
    ensures x % k == r
  {
    var d, m := q - x / k, x % k;
    assert d * k == m - r;
    assert d >= 1 ==> d * k >= k;
    assert d <= -1 ==> d * k <= -k;
  }
}
