/** Sequence operations the search code gets from Python itself: slicing `s[:n]`, list
    comprehensions with a condition, flattening comprehensions, `sorted(..., reverse=True)`
    (a stable sort) and `itertools.product`. */
module Lists {

  /** `s[:n]` for a non-negative `n`: the first `n` elements, or all of them. */
  function Take<T>(s: seq<T>, n: nat): (r: seq<T>)
    ensures |r| == if n < |s| then n else |s|
    ensures r == s[..|r|]
  {
    if n < |s| then s[..n] else s
  }

  /** Truncating, prepending, then truncating again is the same as prepending and truncating once. */
  lemma TakePrependTake<T>(h: seq<T>, x: seq<T>, n: nat)
    ensures Take(h + Take(x, n), n) == Take(h + x, n)
  {
    var a, b := Take(h + Take(x, n), n), Take(h + x, n);
    assert |a| == |b|;
    forall i | 0 <= i < |a| ensures a[i] == b[i] {
      if i < |h| {
        assert a[i] == h[i] == b[i];
      } else {
        assert a[i] == Take(x, n)[i - |h|] == x[i - |h|] == b[i];
      }
    }
  }

  /** `[x for x in s if p(x)]`. */
  function Filter<T>(p: T -> bool, s: seq<T>): (r: seq<T>)
    ensures |r| <= |s|
    ensures forall i :: 0 <= i < |r| ==> r[i] in s && p(r[i])
    ensures forall i :: 0 <= i < |s| && p(s[i]) ==> s[i] in r
  {
    if s == [] then [] else (if p(s[0]) then [s[0]] else []) + Filter(p, s[1..])
  }

  lemma {:induction false} FilterAppend<T>(p: T -> bool, a: seq<T>, b: seq<T>)
    ensures Filter(p, a + b) == Filter(p, a) + Filter(p, b)
  {
    if a == [] {
      assert a + b == b;
    } else {
      assert (a + b)[1..] == a[1..] + b;
      FilterAppend(p, a[1..], b);
    }
  }

  /** `[f(x) for x in s]`. */
  function Map<A, B>(f: A -> B, s: seq<A>): (r: seq<B>)
    ensures |r| == |s|
    ensures forall i :: 0 <= i < |s| ==> r[i] == f(s[i])
  {
    seq(|s|, i requires 0 <= i < |s| => f(s[i]))
  }

  /** A comprehension over a concatenation is the comprehensions over each part. */
  lemma MapAppend<A, B>(f: A -> B, a: seq<A>, b: seq<A>)
    ensures Map(f, a + b) == Map(f, a) + Map(f, b)
  {
  }

  /** `[y for x in s for y in f(x)]`. */
  function FlatMap<A, B>(f: A -> seq<B>, s: seq<A>): (r: seq<B>)
    ensures |r| == 0 ==> forall i :: 0 <= i < |s| ==> f(s[i]) == []
  {
    if s == [] then [] else f(s[0]) + FlatMap(f, s[1..])
  }

  lemma {:induction false} FlatMapAppend<A, B>(f: A -> seq<B>, a: seq<A>, b: seq<A>)
    ensures FlatMap(f, a + b) == FlatMap(f, a) + FlatMap(f, b)
  {
    if a == [] {
      assert a + b == b;
    } else {
      assert (a + b)[1..] == a[1..] + b;
      FlatMapAppend(f, a[1..], b);
    }
  }

  // ---------------------------------------------------------------------------------------
  // sorted(s, key=key, reverse=True)
  // ---------------------------------------------------------------------------------------

  /** Non-increasing by `key`. */
  predicate SortedDesc<T>(key: T -> real, s: seq<T>) {
    forall i, j :: 0 <= i < j < |s| ==> key(s[i]) >= key(s[j])
  }

  /** Places `x` in front of the first element whose key is not larger, so that `x` stays ahead
      of the elements with an equal key. */
  function Insert<T>(key: T -> real, x: T, s: seq<T>): (r: seq<T>)
    ensures |r| == |s| + 1
    ensures multiset(r) == multiset(s) + multiset{x}
  {
    if s == [] || key(s[0]) <= key(x) then [x] + s
    else
      assert multiset(s) == multiset{s[0]} + multiset(s[1..]) by { assert s == [s[0]] + s[1..]; }
      [s[0]] + Insert(key, x, s[1..])
  }

  lemma {:induction false} InsertSorted<T>(key: T -> real, x: T, s: seq<T>)
    requires SortedDesc(key, s)
    ensures SortedDesc(key, Insert(key, x, s))
  {
    if s == [] || key(s[0]) <= key(x) {
      var r := [x] + s;
      forall i, j | 0 <= i < j < |r| ensures key(r[i]) >= key(r[j]) {
        if i > 0 {
          assert r[i] == s[i - 1] && r[j] == s[j - 1];
        } else if j > 1 {
          assert key(s[0]) >= key(s[j - 1]);
        }
      }
    } else {
      var t := Insert(key, x, s[1..]);
      InsertSorted(key, x, s[1..]);
      forall k | 0 <= k < |t| ensures key(s[0]) >= key(t[k]) {
        assert t[k] in multiset(t);
        if t[k] != x {
          assert t[k] in multiset(s[1..]);
          var m :| 0 <= m < |s[1..]| && s[1..][m] == t[k];
          assert s[1..][m] == s[m + 1];
        }
      }
      var r := [s[0]] + t;
      forall i, j | 0 <= i < j < |r| ensures key(r[i]) >= key(r[j]) {
        if i > 0 {
          assert r[i] == t[i - 1] && r[j] == t[j - 1];
        } else {
          assert r[j] == t[j - 1];
        }
      }
    }
  }

  /** Python's stable `sorted(s, key=key, reverse=True)`. */
  function SortDesc<T>(key: T -> real, s: seq<T>): (r: seq<T>)
    ensures SortedDesc(key, r)
    ensures multiset(r) == multiset(s)
    ensures |r| == |s|
  {
    if s == [] then []
    else
      assert multiset(s) == multiset{s[0]} + multiset(s[1..]) by { assert s == [s[0]] + s[1..]; }
      var t := SortDesc(key, s[1..]);
      InsertSorted(key, s[0], t);
      Insert(key, s[0], t)
  }

  /** The elements of `s` whose key is exactly `v`, in their order in `s`. */
  function WithKey<T>(key: T -> real, v: real, s: seq<T>): seq<T> {
    if s == [] then [] else (if key(s[0]) == v then [s[0]] else []) + WithKey(key, v, s[1..])
  }

  lemma {:induction false} InsertWithKey<T>(key: T -> real, v: real, x: T, s: seq<T>)
    ensures WithKey(key, v, Insert(key, x, s)) == (if key(x) == v then [x] else []) + WithKey(key, v, s)
  {
    if s == [] || key(s[0]) <= key(x) {
      assert ([x] + s)[1..] == s;
    } else {
      var r := Insert(key, x, s);
      assert r[1..] == Insert(key, x, s[1..]);
      InsertWithKey(key, v, x, s[1..]);
      assert key(s[0]) != v || key(x) != v;
    }
  }

  /** Stability: among elements with equal keys, the sort keeps the input order. */
  lemma {:induction false} SortDescStable<T>(key: T -> real, v: real, s: seq<T>)
    ensures WithKey(key, v, SortDesc(key, s)) == WithKey(key, v, s)
  {
    if s != [] {
      SortDescStable(key, v, s[1..]);
      InsertWithKey(key, v, s[0], SortDesc(key, s[1..]));
    }
  }

  /** Sorting keeps a strict lower bound on the keys. */
  lemma SortDescAbove<T>(key: T -> real, s: seq<T>, bound: real)
    requires forall i :: 0 <= i < |s| ==> key(s[i]) > bound
    ensures forall i :: 0 <= i < |SortDesc(key, s)| ==> key(SortDesc(key, s)[i]) > bound
  {
    var r := SortDesc(key, s);
    forall i | 0 <= i < |r| ensures key(r[i]) > bound {
      assert r[i] in multiset(s);
    }
  }

  /** `sorted(s, ..., reverse=True)[:n]` keeps the largest keys: nothing left out beats what is kept. */
  lemma TopOfSorted<T>(key: T -> real, s: seq<T>, n: nat)
    ensures var r := Take(SortDesc(key, s), n);
      SortedDesc(key, r) && |r| <= n && multiset(r) <= multiset(s) &&
      forall i, j :: 0 <= i < |r| <= j < |s| ==> key(r[i]) >= key(SortDesc(key, s)[j])
  {
    var t := SortDesc(key, s);
    var r := Take(t, n);
    assert t == r + t[|r|..];
    assert multiset(t) == multiset(r) + multiset(t[|r|..]);
    forall i, j | 0 <= i < j < |r| ensures key(r[i]) >= key(r[j]) {
      assert r[i] == t[i] && r[j] == t[j];
    }
  }

  // ---------------------------------------------------------------------------------------
  // itertools.product(*ls)
  // ---------------------------------------------------------------------------------------

  /** `[[a] + p for a in l for p in ps]`. */
  function PrependEach<T>(l: seq<T>, ps: seq<seq<T>>): (r: seq<seq<T>>)
    ensures |r| == |l| * |ps|
  {
    if l == [] then []
    else seq(|ps|, j requires 0 <= j < |ps| => [l[0]] + ps[j]) + PrependEach(l[1..], ps)
  }

  /** `itertools.product(*ls)`: the first list varies slowest, the last fastest. */
  function Product<T>(ls: seq<seq<T>>): (r: seq<seq<T>>)
    ensures |r| == LengthProduct(ls)
  {
    if ls == [] then [[]] else PrependEach(ls[0], Product(ls[1..]))
  }

  /** The product of the lengths of the lists. */
  function LengthProduct<T>(ls: seq<seq<T>>): nat {
    if ls == [] then 1 else |ls[0]| * LengthProduct(ls[1..])
  }

  lemma {:induction false} PrependEachMember<T>(l: seq<T>, ps: seq<seq<T>>, c: seq<T>)
    ensures c in PrependEach(l, ps) <==> |c| > 0 && c[0] in l && c[1..] in ps
  {
    if l != [] {
      var first := seq(|ps|, j requires 0 <= j < |ps| => [l[0]] + ps[j]);
      PrependEachMember(l[1..], ps, c);
      if c in first {
        var j :| 0 <= j < |ps| && c == first[j];
        assert c[1..] == ps[j];
      }
      if |c| > 0 && c[0] == l[0] && c[1..] in ps {
        var j :| 0 <= j < |ps| && c[1..] == ps[j];
        assert c == [l[0]] + c[1..] == first[j];
      }
      assert forall a :: a in l <==> a == l[0] || a in l[1..];
    }
  }

  /** A sequence is produced by `itertools.product` exactly when it picks, in order, one element
      from each list. */
  lemma {:induction false} ProductMember<T>(ls: seq<seq<T>>, c: seq<T>)
    ensures c in Product(ls) <==> |c| == |ls| && forall i :: 0 <= i < |ls| ==> c[i] in ls[i]
  {
    if ls == [] {
    } else {
      PrependEachMember(ls[0], Product(ls[1..]), c);
      if |c| > 0 {
        ProductMember(ls[1..], c[1..]);
        if |c| == |ls| && forall i :: 0 <= i < |ls| ==> c[i] in ls[i] {
          assert forall i :: 0 <= i < |ls| - 1 ==> c[1..][i] in ls[1..][i] by {
            forall i | 0 <= i < |ls| - 1 ensures c[1..][i] in ls[1..][i] {
              assert c[1..][i] == c[i + 1];
            }
          }
        }
        if c in Product(ls) {
          forall i | 0 <= i < |ls| ensures c[i] in ls[i] {
            if i > 0 {
              assert c[i] == c[1..][i - 1];
            }
          }
        }
      }
    }
  }

  /** `2 ** k`. */
  function Pow2(k: nat): nat {
    if k == 0 then 1 else 2 * Pow2(k - 1)
  }
}
