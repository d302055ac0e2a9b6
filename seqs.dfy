/** Generic sequence operations that the dashboard code reaches through the
    JavaScript array library: filter, reduce-to-sum, group-by with
    first-occurrence key order, and a stable sort by a comparator.

    Every function recurses from the END of its input (Init/Last), the way a
    left-to-right `forEach` or `reduce` has seen a prefix of it, so that a loop
    over the first i elements keeps `x == F(s[..i])` as its invariant. */
module Seqs {

  function Init<T>(s: seq<T>): seq<T>
    requires s != []
  {
    s[..|s| - 1]
  }

  function Last<T>(s: seq<T>): T
    requires s != []
  {
    s[|s| - 1]
  }

  lemma InitLast<T>(s: seq<T>)
    requires s != []
    ensures s == Init(s) + [Last(s)]
  {
  }

  lemma SnocInit<T>(s: seq<T>, x: T)
    ensures Init(s + [x]) == s && Last(s + [x]) == x
  {
    assert (s + [x])[..|s|] == s;
  }

  lemma SliceSnoc<T>(s: seq<T>, i: nat)
    requires i < |s|
    ensures s[..i + 1] == s[..i] + [s[i]]
  {
  }

  /** No key occurs twice. */
  predicate Distinct<K(==)>(ks: seq<K>)
  {
    forall i, j :: 0 <= i < j < |ks| ==> ks[i] != ks[j]
  }

  // ---------------------------------------------------------------- filter

  /** `Array.prototype.filter`: the elements satisfying p, in input order. */
  function Filter<T(!new)>(s: seq<T>, p: T -> bool): (r: seq<T>)
    ensures |r| <= |s|
    ensures forall x :: x in r <==> x in s && p(x)
    ensures forall i :: 0 <= i < |r| ==> p(r[i])
    ensures multiset(r) <= multiset(s)
  {
    if s == [] then []
    else
      var r0 := Filter(Init(s), p);
      assert s == Init(s) + [Last(s)];
      if p(Last(s)) then r0 + [Last(s)] else r0
  }

  lemma {:induction false} FilterAppend<T(!new)>(a: seq<T>, b: seq<T>, p: T -> bool)
    ensures Filter(a + b, p) == Filter(a, p) + Filter(b, p)
  {
    if b == [] {
      assert a + b == a;
    } else {
      SnocInit(a + Init(b), Last(b));
      assert a + b == (a + Init(b)) + [Last(b)];
      FilterAppend(a, Init(b), p);
    }
  }

  /** Filtering by a predicate that every element satisfies changes nothing. */
  lemma {:induction false} FilterAll<T(!new)>(s: seq<T>, p: T -> bool)
    requires forall i :: 0 <= i < |s| ==> p(s[i])
    ensures Filter(s, p) == s
  {
    if s != [] {
      assert forall i :: 0 <= i < |Init(s)| ==> Init(s)[i] == s[i];
      FilterAll(Init(s), p);
      InitLast(s);
      assert p(Last(s));
    }
  }

  /** A guarded filter step `if (on) s = s.filter(test)`: when the guard is
      off the test accepts everything, so skipping it is the same as applying
      it. */
  lemma FilterStage<T(!new)>(s: seq<T>, t: seq<T>, on: bool, test: T -> bool)
    requires on ==> t == Filter(s, test)
    requires !on ==> t == s && forall x :: test(x)
    ensures t == Filter(s, test)
  {
    if !on {
      FilterAll(s, test);
    }
  }

  /** Two filters in a row are one filter by the conjunction. */
  lemma {:induction false} FilterFilter<T(!new)>(s: seq<T>, p: T -> bool, q: T -> bool, pq: T -> bool)
    requires forall x :: pq(x) == (p(x) && q(x))
    ensures Filter(Filter(s, p), q) == Filter(s, pq)
  {
    if s != [] {
      FilterFilter(Init(s), p, q, pq);
      if p(Last(s)) {
        SnocInit(Filter(Init(s), p), Last(s));
      }
    }
  }

  /** Filter does not depend on how the predicate is written. */
  lemma {:induction false} FilterExt<T(!new)>(s: seq<T>, p: T -> bool, q: T -> bool)
    requires forall i :: 0 <= i < |s| ==> p(s[i]) == q(s[i])
    ensures Filter(s, p) == Filter(s, q)
  {
    if s != [] {
      FilterExt(Init(s), p, q);
    }
  }

  /** Two tests that never hold together, each implying a third, select
      together no more elements than the third does. */
  lemma {:induction false} FilterDisjointBound<T(!new)>(s: seq<T>, p: T -> bool, q: T -> bool, r: T -> bool)
    requires forall x :: !(p(x) && q(x))
    requires forall x :: p(x) || q(x) ==> r(x)
    ensures |Filter(s, p)| + |Filter(s, q)| <= |Filter(s, r)|
  {
    if s != [] {
      FilterDisjointBound(Init(s), p, q, r);
    }
  }

  /** Filter keeps each accepted element exactly as often as it occurs and
      drops every other one. */
  lemma {:induction false} FilterCount<T(!new)>(s: seq<T>, p: T -> bool)
    ensures forall x :: multiset(Filter(s, p))[x] == if p(x) then multiset(s)[x] else 0
  {
    if s != [] {
      FilterCount(Init(s), p);
      InitLast(s);
      assert multiset(s) == multiset(Init(s)) + multiset{Last(s)};
    }
  }

  /** The positions of s at which p holds, in increasing order. */
  function Positions<T>(s: seq<T>, p: T -> bool): (ix: seq<nat>)
    ensures forall k :: 0 <= k < |ix| ==> ix[k] < |s| && p(s[ix[k]])
    ensures forall k, l :: 0 <= k < l < |ix| ==> ix[k] < ix[l]
    ensures forall m :: 0 <= m < |s| && p(s[m]) ==> m in ix
  {
    if s == [] then []
    else
      assert forall m :: 0 <= m < |Init(s)| ==> Init(s)[m] == s[m];
      Positions(Init(s), p) + (if p(Last(s)) then [|s| - 1] else [])
  }

  /** Filter keeps the input order: its k-th element is the element at the
      k-th position where p holds. */
  lemma {:induction false} FilterOrder<T(!new)>(s: seq<T>, p: T -> bool)
    ensures |Filter(s, p)| == |Positions(s, p)|
    ensures forall k :: 0 <= k < |Filter(s, p)| ==> Filter(s, p)[k] == s[Positions(s, p)[k]]
  {
    if s != [] {
      var s0, x := Init(s), Last(s);
      FilterOrder(s0, p);
      var f0, ix0 := Filter(s0, p), Positions(s0, p);
      if p(x) {
        assert Filter(s, p) == f0 + [x];
        assert Positions(s, p) == ix0 + [|s| - 1];
        forall k | 0 <= k < |f0| + 1 ensures (f0 + [x])[k] == s[(ix0 + [|s| - 1])[k]] {
          if k < |f0| {
            assert s0[ix0[k]] == s[ix0[k]];
          }
        }
      } else {
        assert Filter(s, p) == f0;
        assert Positions(s, p) == ix0;
        forall k | 0 <= k < |f0| ensures f0[k] == s[ix0[k]] {
          assert s0[ix0[k]] == s[ix0[k]];
        }
      }
    }
  }

  // ---------------------------------------------------------------- sums

  /** `reduce((sum, x) => sum + f(x), 0)`. */
  function SumOf<T>(s: seq<T>, f: T -> int): int
  {
    if s == [] then 0 else SumOf(Init(s), f) + f(Last(s))
  }

  lemma {:induction false} SumAppend<T>(a: seq<T>, b: seq<T>, f: T -> int)
    ensures SumOf(a + b, f) == SumOf(a, f) + SumOf(b, f)
  {
    if b == [] {
      assert a + b == a;
    } else {
      SnocInit(a + Init(b), Last(b));
      assert a + b == (a + Init(b)) + [Last(b)];
      SumAppend(a, Init(b), f);
    }
  }

  /** Splitting a sum by a predicate: the two parts add up to the whole. */
  lemma {:induction false} SumSplit<T(!new)>(s: seq<T>, p: T -> bool, f: T -> int)
    ensures SumOf(Filter(s, p), f) + SumOf(Filter(s, x => !p(x)), f) == SumOf(s, f)
  {
    if s != [] {
      SumSplit(Init(s), p, f);
      if p(Last(s)) {
        SnocInit(Filter(Init(s), p), Last(s));
      } else {
        SnocInit(Filter(Init(s), x => !p(x)), Last(s));
      }
    }
  }

  function One<T>(x: T): int
  {
    1
  }

  lemma {:induction false} SumOneIsLength<T>(s: seq<T>)
    ensures SumOf(s, One) == |s|
  {
    if s != [] {
      SumOneIsLength(Init(s));
    }
  }

  // ---------------------------------------------------------------- group by

  /** The keys of s in order of first occurrence: the key order of a
      JavaScript object built by `acc[key(x)] = ...` over s, as
      `Object.entries` lists it. */
  function DistinctKeys<T, K(==,!new)>(s: seq<T>, key: T -> K): (r: seq<K>)
    ensures Distinct(r)
    ensures |r| <= |s|
  {
    if s == [] then []
    else
      var r0 := DistinctKeys(Init(s), key);
      if key(Last(s)) in r0 then r0 else r0 + [key(Last(s))]
  }

  /** The distinct keys are exactly the keys that occur. */
  lemma {:induction false} DistinctKeysMembers<T, K(!new)>(s: seq<T>, key: T -> K)
    ensures forall k :: k in DistinctKeys(s, key) <==> exists i :: 0 <= i < |s| && key(s[i]) == k
  {
    if s != [] {
      DistinctKeysMembers(Init(s), key);
      assert forall i :: 0 <= i < |s| - 1 ==> Init(s)[i] == s[i];
    }
  }

  /** The sum of f over the elements whose key is k. */
  function SumWhere<T, K(==)>(s: seq<T>, key: T -> K, k: K, f: T -> int): int
  {
    if s == [] then 0
    else SumWhere(Init(s), key, k, f) + (if key(Last(s)) == k then f(Last(s)) else 0)
  }

  /** The sum of the per-key sums over a list of keys. */
  function KeysTotal<T, K(==)>(ks: seq<K>, s: seq<T>, key: T -> K, f: T -> int): int
  {
    if ks == [] then 0 else KeysTotal(Init(ks), s, key, f) + SumWhere(s, key, Last(ks), f)
  }

  /** A key that never occurs has sum 0. */
  lemma {:induction false} SumWhereAbsent<T, K(!new)>(s: seq<T>, key: T -> K, k: K, f: T -> int)
    requires k !in DistinctKeys(s, key)
    ensures SumWhere(s, key, k, f) == 0
  {
    if s != [] {
      SumWhereAbsent(Init(s), key, k, f);
    }
  }

  lemma {:induction false} KeysTotalSnoc<T, K>(ks: seq<K>, s: seq<T>, x: T, key: T -> K, f: T -> int)
    requires Distinct(ks)
    ensures KeysTotal(ks, s + [x], key, f) == KeysTotal(ks, s, key, f) + (if key(x) in ks then f(x) else 0)
  {
    SnocInit(s, x);
    if ks != [] {
      KeysTotalSnoc(Init(ks), s, x, key, f);
      assert ks == Init(ks) + [Last(ks)];
    }
  }

  /** Grouping conserves the total: the per-key sums over the distinct keys
      add up to the sum over all elements. */
  lemma {:induction false} GroupTotal<T, K(!new)>(s: seq<T>, key: T -> K, f: T -> int)
    ensures KeysTotal(DistinctKeys(s, key), s, key, f) == SumOf(s, f)
  {
    if s != [] {
      var p, x := Init(s), Last(s);
      var ks := DistinctKeys(p, key);
      InitLast(s);
      GroupTotal(p, key, f);
      KeysTotalSnoc(ks, p, x, key, f);
      if key(x) !in ks {
        SumWhereAbsent(p, key, key(x), f);
        SnocInit(ks, key(x));
        SnocInit(p, x);
      }
    }
  }

  /** The keys of a prefix are a prefix of the keys. */
  lemma {:induction false} DistinctKeysPrefix<T, K(!new)>(s: seq<T>, n: nat, key: T -> K)
    requires n <= |s|
    ensures DistinctKeys(s[..n], key) <= DistinctKeys(s, key)
  {
    if n < |s| {
      DistinctKeysPrefix(Init(s), n, key);
      assert Init(s)[..n] == s[..n];
    } else {
      assert s[..n] == s;
    }
  }

  /** First-occurrence order: if key r[i] is listed before r[j], then every
      element with key r[j] is preceded by an element with key r[i]. */
  lemma FirstOccurrenceOrder<T, K(!new)>(s: seq<T>, key: T -> K, i: nat, j: nat, m: nat)
    requires i < j < |DistinctKeys(s, key)|
    requires m < |s| && key(s[m]) == DistinctKeys(s, key)[j]
    ensures exists m' :: 0 <= m' < m && key(s[m']) == DistinctKeys(s, key)[i]
  {
    var r := DistinctKeys(s, key);
    var pr := DistinctKeys(s[..m + 1], key);
    DistinctKeysPrefix(s, m + 1, key);
    DistinctKeysMembers(s[..m + 1], key);
    assert s[..m + 1][m] == s[m];
    assert r[j] in pr;
    var j' :| 0 <= j' < |pr| && pr[j'] == r[j];
    assert j' == j;
    assert r[i] == pr[i] && pr[i] in pr;
    var m'' :| 0 <= m'' < |s[..m + 1]| && key(s[..m + 1][m'']) == r[i];
    assert key(s[m'']) == r[i];
    assert m'' != m;
  }

  // ---------------------------------------------------------------- sorting

  /** le is total and transitive: a comparator `cmp` read as
      `le(a, b) == (cmp(a, b) <= 0)` that a sort can use consistently. */
  ghost predicate TotalPreorder<T(!new)>(le: (T, T) -> bool)
  {
    (forall a, b :: le(a, b) || le(b, a)) &&
    (forall a, b, c :: le(a, b) && le(b, c) ==> le(a, c))
  }

  predicate SortedBy<T>(s: seq<T>, le: (T, T) -> bool)
  {
    forall i, j :: 0 <= i < j < |s| ==> le(s[i], s[j])
  }

  /** Inserts x after every leading element e with le(e, x), so that x goes
      behind the elements it ties with. */
  function Insert<T>(r: seq<T>, x: T, le: (T, T) -> bool): (r': seq<T>)
    ensures multiset(r') == multiset(r) + multiset{x}
    ensures |r'| == |r| + 1
  {
    if r == [] then [x]
    else if le(r[0], x) then
      assert r == [r[0]] + r[1..];
      [r[0]] + Insert(r[1..], x, le)
    else [x] + r
  }

  /** `Array.prototype.sort` with comparator `cmp`, where le(a, b) is
      `cmp(a, b) <= 0`. The built-in sort is stable, and for a comparator
      that is a total preorder a stable sort has exactly one result: this
      insertion sort computes it. */
  function SortBy<T>(s: seq<T>, le: (T, T) -> bool): (r: seq<T>)
    ensures multiset(r) == multiset(s)
    ensures |r| == |s|
  {
    if s == [] then []
    else
      assert s == Init(s) + [Last(s)];
      Insert(SortBy(Init(s), le), Last(s), le)
  }

  /** A sorted list stays sorted behind an element that comes before all of
      it. */
  lemma ConsSorted<T>(a: T, t: seq<T>, le: (T, T) -> bool)
    requires SortedBy(t, le)
    requires forall j :: 0 <= j < |t| ==> le(a, t[j])
    ensures SortedBy([a] + t, le)
  {
    var u := [a] + t;
    forall i, j | 0 <= i < j < |u| ensures le(u[i], u[j]) {
      assert u[j] == t[j - 1];
      if i > 0 {
        assert u[i] == t[i - 1];
      }
    }
  }

  /** Whatever comes before every element of r and before x comes before
      every element of Insert(r, x). */
  lemma InsertBelow<T>(a: T, r: seq<T>, x: T, le: (T, T) -> bool)
    requires forall j :: 0 <= j < |r| ==> le(a, r[j])
    requires le(a, x)
    ensures forall j :: 0 <= j < |Insert(r, x, le)| ==> le(a, Insert(r, x, le)[j])
  {
    var t := Insert(r, x, le);
    forall j | 0 <= j < |t| ensures le(a, t[j]) {
      assert t[j] in multiset(t);
      if t[j] != x {
        assert t[j] in multiset(r);
        var k :| 0 <= k < |r| && r[k] == t[j];
      }
    }
  }

  lemma {:induction false} InsertSorted<T(!new)>(r: seq<T>, x: T, le: (T, T) -> bool)
    requires TotalPreorder(le) && SortedBy(r, le)
    ensures SortedBy(Insert(r, x, le), le)
  {
    if r != [] {
      var r1 := r[1..];
      assert r == [r[0]] + r1;
      assert forall j :: 0 <= j < |r1| ==> r1[j] == r[j + 1];
      if le(r[0], x) {
        InsertSorted(r1, x, le);
        InsertBelow(r[0], r1, x, le);
        ConsSorted(r[0], Insert(r1, x, le), le);
      } else {
        assert le(x, r[0]);
        ConsSorted(x, r, le);
      }
    }
  }

  lemma {:induction false} SortBySorted<T(!new)>(s: seq<T>, le: (T, T) -> bool)
    requires TotalPreorder(le)
    ensures SortedBy(SortBy(s, le), le)
  {
    if s != [] {
      SortBySorted(Init(s), le);
      InsertSorted(SortBy(Init(s), le), Last(s), le);
    }
  }

  /** Filtering keeps a sorted list sorted. */
  lemma {:induction false} FilterSorted<T(!new)>(s: seq<T>, p: T -> bool, le: (T, T) -> bool)
    requires SortedBy(s, le)
    ensures SortedBy(Filter(s, p), le)
  {
    if s != [] {
      var q, x := Init(s), Last(s);
      assert SortedBy(q, le) by {
        assert forall i :: 0 <= i < |q| ==> q[i] == s[i];
      }
      FilterSorted(q, p, le);
      if p(x) {
        var f := Filter(q, p);
        forall i | 0 <= i < |f| ensures le(f[i], x) {
          var y := f[i];
          assert y in f;
          var k :| 0 <= k < |q| && q[k] == y;
          assert s[k] == y && s[|s| - 1] == x;
        }
        forall i, j | 0 <= i < j < |f + [x]| ensures le((f + [x])[i], (f + [x])[j]) {
          if j == |f| {
            assert (f + [x])[j] == x;
          }
        }
      }
    }
  }

  /** `slice(0, n)` for n >= 0. */
  function Min(a: int, b: int): int
  {
    if a < b then a else b
  }

  function Take<T>(s: seq<T>, n: nat): (r: seq<T>)
    ensures |r| == if n < |s| then n else |s|
    ensures r <= s
  {
    if n < |s| then s[..n] else s
  }

  lemma TakeMultiset<T>(s: seq<T>, n: nat)
    ensures multiset(Take(s, n)) <= multiset(s)
  {
    if n < |s| {
      assert s == s[..n] + s[n..];
    }
  }

  /** Taking the first n of a sorted list keeps a best n: every element
      that is left out comes after every element that is kept. */
  lemma TakeSortedDominates<T(!new)>(s: seq<T>, le: (T, T) -> bool, n: nat, x: T, y: T)
    requires TotalPreorder(le)
    requires x in s && x !in Take(SortBy(s, le), n) && y in Take(SortBy(s, le), n)
    ensures le(y, x)
  {
    var r := SortBy(s, le);
    SortBySorted(s, le);
    assert x in multiset(r) by { assert x in multiset(s); }
    var j :| 0 <= j < |r| && r[j] == x;
    var t := Take(r, n);
    var i :| 0 <= i < |t| && t[i] == y;
    assert r[i] == y;
    assert forall k :: 0 <= k < |t| ==> t[k] == r[k];
    assert i < j;
  }

  // ---------------------------------------------------------------- search

  /** `findIndex` as an Option: the first position whose element satisfies p. */
  function FindFirst<T>(s: seq<T>, p: T -> bool): (r: Option<nat>)
    ensures r.Some? ==> r.value < |s| && p(s[r.value]) && forall j :: 0 <= j < r.value ==> !p(s[j])
    ensures r.None? ==> forall j :: 0 <= j < |s| ==> !p(s[j])
  {
    if s == [] then None
    else if p(s[0]) then Some(0)
    else match FindFirst(s[1..], p)
      case None => None
      case Some(i) => Some(i + 1)
  }

  datatype Option<+T> = None | Some(value: T)

  // ---------------------------------------------------------------- more sums

  /** The sum of f over the elements with key k of a filtered list is one
      filter by both conditions. */
  lemma {:induction false} SumWhereFilter<T(!new), K>(s: seq<T>, p: T -> bool, key: T -> K, k: K, f: T -> int, pk: T -> bool)
    requires forall x :: pk(x) == (p(x) && key(x) == k)
    ensures SumWhere(Filter(s, p), key, k, f) == SumOf(Filter(s, pk), f)
  {
    if s != [] {
      SumWhereFilter(Init(s), p, key, k, f, pk);
      if p(Last(s)) {
        SnocInit(Filter(Init(s), p), Last(s));
      }
      if pk(Last(s)) {
        SnocInit(Filter(Init(s), pk), Last(s));
      }
    }
  }

  /** Per-key sums over a list of distinct keys that covers every element's
      key add up to the whole sum. */
  lemma {:induction false} KeysTotalCover<T, K>(ks: seq<K>, s: seq<T>, key: T -> K, f: T -> int)
    requires Distinct(ks)
    requires forall i :: 0 <= i < |s| ==> key(s[i]) in ks
    ensures KeysTotal(ks, s, key, f) == SumOf(s, f)
  {
    if s != [] {
      InitLast(s);
      KeysTotalCover(ks, Init(s), key, f);
      KeysTotalSnoc(ks, Init(s), Last(s), key, f);
    } else {
      KeysTotalEmpty(ks, key, f);
    }
  }

  lemma {:induction false} KeysTotalEmpty<T, K>(ks: seq<K>, key: T -> K, f: T -> int)
    ensures KeysTotal(ks, [], key, f) == 0
  {
    if ks != [] {
      KeysTotalEmpty(Init(ks), key, f);
    }
  }

  /** The callback of `reduce((acc, x) => { acc[key(x)] = (acc[key(x)] || 0)
      + f(x); return acc }, {})`: add v to the entry of k, creating it at 0
      first. */
  function AddTo<K>(acc: map<K, int>, k: K, v: int): map<K, int>
  {
    acc[k := (if k in acc then acc[k] else 0) + v]
  }

  /** acc holds exactly the keys that occur in s, each with the sum of f
      over the elements that have it. */
  ghost predicate SumsBy<T, K(!new)>(acc: map<K, int>, s: seq<T>, key: T -> K, f: T -> int)
  {
    (forall k :: k in acc <==> k in DistinctKeys(s, key)) &&
    (forall k :: k in acc ==> acc[k] == SumWhere(s, key, k, f))
  }

  lemma SumWhereSnoc<T, K>(s: seq<T>, x: T, key: T -> K, k: K, f: T -> int)
    ensures SumWhere(s + [x], key, k, f) == SumWhere(s, key, k, f) + (if key(x) == k then f(x) else 0)
  {
    SnocInit(s, x);
  }

  lemma DistinctKeysSnoc<T, K(!new)>(s: seq<T>, x: T, key: T -> K)
    ensures DistinctKeys(s + [x], key) ==
      if key(x) in DistinctKeys(s, key) then DistinctKeys(s, key) else DistinctKeys(s, key) + [key(x)]
  {
    SnocInit(s, x);
  }

  /** One more element adds f(x) to its key's entry, so the callback keeps
      the dictionary equal to the per-key sums. */
  lemma AddToSums<T, K(!new)>(acc: map<K, int>, s: seq<T>, x: T, key: T -> K, f: T -> int)
    requires SumsBy(acc, s, key, f)
    ensures SumsBy(AddTo(acc, key(x), f(x)), s + [x], key, f)
  {
    var b := AddTo(acc, key(x), f(x));
    DistinctKeysSnoc(s, x, key);
    if key(x) !in acc {
      SumWhereAbsent(s, key, key(x), f);
    }
    assert b.Keys == acc.Keys + {key(x)};
    forall k | k in b ensures b[k] == SumWhere(s + [x], key, k, f) {
      SumWhereSnoc(s, x, key, k, f);
    }
  }
}
