/** Sequence operations shared by the list views and the database queries:
    JavaScript `Array.prototype.filter` / SQL `WHERE`, SQL `OFFSET … LIMIT`,
    SQL `ORDER BY … DESC` and SQL `COUNT`. */
module Seqs {
  import opened Wrappers

  /** `s.filter(p)` / `WHERE p`: keeps, in order, the elements satisfying `p`. */
  function Filter<T(==)>(s: seq<T>, p: T -> bool): (r: seq<T>)
    ensures |r| <= |s|
    ensures forall i :: 0 <= i < |r| ==> r[i] in s && p(r[i])
    ensures forall i :: 0 <= i < |s| && p(s[i]) ==> s[i] in r
  {
    if s == [] then []
    else (if p(s[0]) then [s[0]] else []) + Filter(s[1..], p)
  }

  /** `a` is `b` with some elements deleted and the rest kept in order. */
  predicate IsSubsequence<T(==)>(a: seq<T>, b: seq<T>)
    decreases |b|
  {
    a == [] || (b != [] && ((a[0] == b[0] && IsSubsequence(a[1..], b[1..])) || IsSubsequence(a, b[1..])))
  }

  /** A filter keeps each element satisfying `p` as often as it occurs, and
      no other. */
  lemma {:induction false} FilterMultiset<T>(s: seq<T>, p: T -> bool)
    ensures forall x :: multiset(Filter(s, p))[x] == if p(x) then multiset(s)[x] else 0
  {
    if s != [] {
      FilterMultiset(s[1..], p);
      assert s == [s[0]] + s[1..];
    }
  }

  /** A position at which `x` occurs in `s`. */
  lemma IndexOf<T>(s: seq<T>, x: T) returns (k: nat)
    requires x in s
    ensures k < |s| && s[k] == x
  {
    k :| 0 <= k < |s| && s[k] == x;
  }

  /** A filter never reorders: its result is an order-preserving subsequence. */
  lemma {:induction false} FilterIsSubsequence<T>(s: seq<T>, p: T -> bool)
    ensures IsSubsequence(Filter(s, p), s)
  {
    if s != [] {
      FilterIsSubsequence(s[1..], p);
      if p(s[0]) {
        assert Filter(s, p) == [s[0]] + Filter(s[1..], p);
        assert Filter(s, p)[1..] == Filter(s[1..], p);
      } else {
        assert Filter(s, p) == Filter(s[1..], p);
        if Filter(s, p) != [] {
          assert IsSubsequence(Filter(s, p), s[1..]);
        }
      }
    }
  }

  /** A predicate that holds everywhere keeps the whole sequence. */
  lemma {:induction false} FilterAll<T>(s: seq<T>, p: T -> bool)
    requires forall i :: 0 <= i < |s| ==> p(s[i])
    ensures Filter(s, p) == s
  {
    if s != [] {
      FilterAll(s[1..], p);
    }
  }

  /** A predicate that holds nowhere keeps nothing. */
  lemma {:induction false} FilterNone<T>(s: seq<T>, p: T -> bool)
    requires forall i :: 0 <= i < |s| ==> !p(s[i])
    ensures Filter(s, p) == []
  {
    if s != [] {
      FilterNone(s[1..], p);
    }
  }

  /** Filtering with two predicates that agree on `s` gives the same result. */
  lemma {:induction false} FilterCongruent<T>(s: seq<T>, p: T -> bool, q: T -> bool)
    requires forall i :: 0 <= i < |s| ==> p(s[i]) == q(s[i])
    ensures Filter(s, p) == Filter(s, q)
  {
    if s != [] {
      FilterCongruent(s[1..], p, q);
    }
  }

  /** Filtering a concatenation filters each part. */
  lemma {:induction false} FilterAppend<T>(a: seq<T>, b: seq<T>, p: T -> bool)
    ensures Filter(a + b, p) == Filter(a, p) + Filter(b, p)
  {
    if a == [] {
      assert a + b == b;
    } else {
      assert (a + b)[0] == a[0];
      assert (a + b)[1..] == a[1..] + b;
      FilterAppend(a[1..], b, p);
    }
  }

  /** Number of elements of `s` satisfying `p` (SQL `COUNT(*) … WHERE p`). */
  function Count<T(==)>(s: seq<T>, p: T -> bool): (n: nat)
    ensures n <= |s|
  {
    |Filter(s, p)|
  }

  /** A stronger condition never counts more. */
  lemma {:induction false} CountMonotone<T>(s: seq<T>, p: T -> bool, q: T -> bool)
    requires forall i :: 0 <= i < |s| && p(s[i]) ==> q(s[i])
    ensures Count(s, p) <= Count(s, q)
  {
    if s != [] {
      CountMonotone(s[1..], p, q);
    }
  }

  /** Two conditions that never hold together, each stronger than a third,
      count together no more than the third. */
  lemma {:induction false} CountDisjoint<T>(s: seq<T>, p: T -> bool, q: T -> bool, r: T -> bool)
    requires forall i :: 0 <= i < |s| && p(s[i]) ==> r(s[i])
    requires forall i :: 0 <= i < |s| && q(s[i]) ==> r(s[i]) && !p(s[i])
    ensures Count(s, p) + Count(s, q) <= Count(s, r)
  {
    if s != [] {
      CountDisjoint(s[1..], p, q, r);
    }
  }

  function Min(a: int, b: int): int {
    if a <= b then a else b
  }

  /** `.offset(skip).limit(limit)`: the window of at most `limit` rows starting at `skip`. */
  function Paginate<T>(s: seq<T>, skip: nat, limit: nat): (r: seq<T>)
    ensures |r| == if skip >= |s| then 0 else Min(limit, |s| - skip)
    ensures forall i :: 0 <= i < |r| ==> r[i] == s[skip + i]
  {
    if skip >= |s| then [] else s[skip..][..Min(limit, |s| - skip)]
  }

  /** `r` is the window `.offset(skip).limit(limit)` cuts from `s`: the rows
      of `s` from position `skip` on, at most `limit` of them, in order. */
  ghost predicate IsWindow<T>(r: seq<T>, s: seq<T>, skip: nat, limit: nat) {
    |r| == (if skip >= |s| then 0 else Min(limit, |s| - skip))
    && forall i :: 0 <= i < |r| ==> r[i] == s[skip + i]
  }

  /** Every paginated row is a row of the input. */
  lemma PaginateFrom<T>(s: seq<T>, skip: nat, limit: nat)
    ensures forall i :: 0 <= i < |Paginate(s, skip, limit)| ==> Paginate(s, skip, limit)[i] in s
  {
  }

  /** `.limit(n)` alone: the first `n` rows. */
  function Take<T>(s: seq<T>, n: nat): (r: seq<T>)
    ensures |r| == Min(n, |s|)
    ensures r == s[..|r|]
  {
    if n <= |s| then s[..n] else s
  }

  /** Sorted by `key`, largest first. */
  ghost predicate SortedDesc<T>(s: seq<T>, key: T -> int) {
    forall i, j :: 0 <= i < j < |s| ==> key(s[i]) >= key(s[j])
  }

  /** Inserts `x` before the first element whose key is strictly smaller. */
  function InsertDesc<T>(x: T, s: seq<T>, key: T -> int): (r: seq<T>)
    ensures multiset(r) == multiset(s) + multiset{x}
    ensures |r| == |s| + 1
  {
    if s == [] || key(x) >= key(s[0]) then [x] + s
    else
      assert s == [s[0]] + s[1..];
      [s[0]] + InsertDesc(x, s[1..], key)
  }

  lemma {:induction false} InsertDescSorted<T>(x: T, s: seq<T>, key: T -> int)
    requires SortedDesc(s, key)
    ensures SortedDesc(InsertDesc(x, s, key), key)
    ensures InsertDesc(x, s, key)[0] == x || InsertDesc(x, s, key)[0] == s[0]
  {
    if s == [] || key(x) >= key(s[0]) {
    } else {
      InsertDescSorted(x, s[1..], key);
      var r := InsertDesc(x, s[1..], key);
      assert InsertDesc(x, s, key) == [s[0]] + r;
      forall j | 0 < j < |r| + 1 ensures key(s[0]) >= key(([s[0]] + r)[j]) {
        assert ([s[0]] + r)[j] == r[j - 1];
        assert r[j - 1] in multiset(r);
        assert r[j - 1] in multiset(s[1..]) + multiset{x};
        if r[j - 1] != x {
          assert r[j - 1] in s[1..];
        }
      }
    }
  }

  /** `ORDER BY key DESC`: a stable insertion sort (rows with equal keys keep
      their order in the model's rows). */
  function SortDesc<T>(s: seq<T>, key: T -> int): (r: seq<T>)
    ensures multiset(r) == multiset(s)
    ensures |r| == |s|
  {
    if s == [] then [] else
      assert s == [s[0]] + s[1..];
      InsertDesc(s[0], SortDesc(s[1..], key), key)
  }

  /** The sort's output is ordered by key, largest first. */
  lemma {:induction false} SortDescSorted<T>(s: seq<T>, key: T -> int)
    ensures SortedDesc(SortDesc(s, key), key)
  {
    if s != [] {
      SortDescSorted(s[1..], key);
      InsertDescSorted(s[0], SortDesc(s[1..], key), key);
    }
  }

  /** The first `n` rows of a descending sort are themselves sorted, and no row
      left out has a larger key than a row kept. */
  lemma TopNDesc<T>(s: seq<T>, key: T -> int, n: nat)
    ensures SortedDesc(Take(SortDesc(s, key), n), key)
    ensures forall i, j :: 0 <= i < |Take(SortDesc(s, key), n)| <= j < |s| ==>
              key(SortDesc(s, key)[i]) >= key(SortDesc(s, key)[j])
  {
    SortDescSorted(s, key);
  }

  /** In the first page of a descending sort, no row of the input that the
      page leaves out has a larger key than the page's last row. */
  lemma FirstPageOfSortDesc<T>(s: seq<T>, key: T -> int, limit: nat)
    ensures var r := Paginate(SortDesc(s, key), 0, limit);
            r != [] ==> forall x :: x in s && x !in r ==> key(x) <= key(r[|r| - 1])
  {
    var sorted := SortDesc(s, key);
    var r := Paginate(sorted, 0, limit);
    SortDescSorted(s, key);
    forall x | x in s && x !in r && r != [] ensures key(x) <= key(r[|r| - 1]) {
      assert x in multiset(s);
      assert x in multiset(sorted);
      var j :| 0 <= j < |sorted| && sorted[j] == x;
      assert j >= |r|;
      assert sorted[|r| - 1] == r[|r| - 1];
    }
  }

  /** `s.map(x => p(x) ? f(x) : x)`: rewrites the elements satisfying `p`,
      keeps the others, and keeps length and order. */
  function MapIf<T>(s: seq<T>, p: T -> bool, f: T -> T): (r: seq<T>)
    ensures |r| == |s|
    ensures forall i :: 0 <= i < |s| ==> r[i] == (if p(s[i]) then f(s[i]) else s[i])
  {
    if s == [] then [] else [if p(s[0]) then f(s[0]) else s[0]] + MapIf(s[1..], p, f)
  }

  /** A rewrite that keeps the selection and undoes itself restores the
      sequence when applied twice. */
  lemma MapIfTwice<T>(s: seq<T>, p: T -> bool, f: T -> T)
    requires forall i :: 0 <= i < |s| && p(s[i]) ==> p(f(s[i])) && f(f(s[i])) == s[i]
    ensures MapIf(MapIf(s, p, f), p, f) == s
  {
  }

  /** Position of the first element satisfying `p` (SQL `.filter(p).first()`
      on a table read in the model's row order). */
  function FirstIndex<T>(s: seq<T>, p: T -> bool): (r: Option<nat>)
    ensures r.Some? ==> r.value < |s| && p(s[r.value]) && forall j :: 0 <= j < r.value ==> !p(s[j])
    ensures r.None? ==> forall i :: 0 <= i < |s| ==> !p(s[i])
  {
    if s == [] then None
    else if p(s[0]) then Some(0)
    else match FirstIndex(s[1..], p)
      case None => None
      case Some(i) => Some(i + 1)
  }

  /** `.filter(p).first()`: the first row satisfying `p`, or None. */
  function Find<T>(s: seq<T>, p: T -> bool): (r: Option<T>)
    ensures r.Some? <==> FirstIndex(s, p).Some?
    ensures r.Some? ==> r.value == s[FirstIndex(s, p).value] && p(r.value)
  {
    match FirstIndex(s, p)
    case None => None
    case Some(i) => Some(s[i])
  }

  /** `db.delete(row)` of the row `.first()` found: drops that one element. */
  function RemoveFirst<T>(s: seq<T>, p: T -> bool): (r: seq<T>)
    ensures FirstIndex(s, p).None? ==> r == s
    ensures FirstIndex(s, p).Some? ==> |r| == |s| - 1
    ensures FirstIndex(s, p).Some? ==> r == s[..FirstIndex(s, p).value] + s[FirstIndex(s, p).value + 1..]
  {
    match FirstIndex(s, p)
    case None => s
    case Some(i) => s[..i] + s[i + 1..]
  }

  /** SQL `SUM(f)` over the rows of `s` (0 for no rows, as `scalar() or 0`). */
  function Sum<T>(s: seq<T>, f: T -> int): int {
    if s == [] then 0 else f(s[0]) + Sum(s[1..], f)
  }

  /** A sum over a concatenation adds the sums of the parts. */
  lemma {:induction false} SumAppend<T>(a: seq<T>, b: seq<T>, f: T -> int)
    ensures Sum(a + b, f) == Sum(a, f) + Sum(b, f)
  {
    if a == [] {
      assert a + b == b;
    } else {
      assert (a + b)[0] == a[0];
      assert (a + b)[1..] == a[1..] + b;
      SumAppend(a[1..], b, f);
    }
  }

  /** A sum of positive terms over a non-empty sequence is positive. */
  lemma {:induction false} SumPositive<T>(s: seq<T>, f: T -> int)
    requires forall i :: 0 <= i < |s| ==> f(s[i]) > 0
    ensures Sum(s, f) >= |s|
  {
    if s != [] {
      SumPositive(s[1..], f);
    }
  }

  /** `FirstIndex` is the one index whose element satisfies `p` and has no
      satisfying element before it. */
  lemma {:induction false} FirstIndexUnique<T>(s: seq<T>, p: T -> bool, i: nat)
    requires i < |s| && p(s[i]) && forall j :: 0 <= j < i ==> !p(s[j])
    ensures FirstIndex(s, p) == Some(i)
  {
    if i > 0 {
      assert !p(s[0]);
      FirstIndexUnique(s[1..], p, i - 1);
    }
  }

  /** Two conditions that agree on every element find the same row. */
  lemma FindCongruent<T>(s: seq<T>, p: T -> bool, q: T -> bool)
    requires forall i :: 0 <= i < |s| ==> p(s[i]) == q(s[i])
    ensures FirstIndex(s, p) == FirstIndex(s, q)
    ensures Find(s, p) == Find(s, q)
  {
    match FirstIndex(s, p)
    case None =>
    case Some(i) => FirstIndexUnique(s, q, i);
  }

  /** Appending a row changes a lookup only when nothing matched before. */
  lemma FindAppend<T>(s: seq<T>, x: T, p: T -> bool)
    ensures FirstIndex(s, p).Some? ==> Find(s + [x], p) == Find(s, p)
    ensures FirstIndex(s, p).None? ==> Find(s + [x], p) == if p(x) then Some(x) else None
  {
    match FirstIndex(s, p)
    case Some(i) =>
      FirstIndexUnique(s + [x], p, i);
    case None =>
      if p(x) {
        FirstIndexUnique(s + [x], p, |s|);
      } else {
        assert forall i :: 0 <= i < |s + [x]| ==> !p((s + [x])[i]) by {
          forall i | 0 <= i < |s + [x]| ensures !p((s + [x])[i]) {
            if i < |s| {
              assert (s + [x])[i] == s[i];
            }
          }
        }
      }
  }

  /** `row.field = value` on the row `.first()` found: rewrites that one
      element with `f` and keeps every other element. */
  function UpdateFirst<T>(s: seq<T>, p: T -> bool, f: T -> T): (r: seq<T>)
    ensures |r| == |s|
    ensures FirstIndex(s, p).None? ==> r == s
    ensures FirstIndex(s, p).Some? ==> r == s[FirstIndex(s, p).value := f(s[FirstIndex(s, p).value])]
  {
    match FirstIndex(s, p)
    case None => s
    case Some(i) => s[i := f(s[i])]
  }

  /** After an update that keeps the row selected, looking the row up again
      finds the updated row. */
  lemma FindAfterUpdateFirst<T>(s: seq<T>, p: T -> bool, f: T -> T)
    requires forall i :: 0 <= i < |s| && p(s[i]) ==> p(f(s[i]))
    ensures Find(UpdateFirst(s, p, f), p) == match Find(s, p) case None => None case Some(x) => Some(f(x))
  {
    match FirstIndex(s, p)
    case None =>
    case Some(i) =>
      FirstIndexUnique(UpdateFirst(s, p, f), p, i);
  }

  /** A window of a sequence sorted by key is sorted by key. */
  lemma PaginateSorted<T>(s: seq<T>, key: T -> int, skip: nat, limit: nat)
    requires SortedDesc(s, key)
    ensures SortedDesc(Paginate(s, skip, limit), key)
  {
  }

  /** Summing a non-negative quantity over a filtered sequence gives no more
      than summing it over a filter that keeps at least the same elements. */
  lemma {:induction false} SumFilterMonotone<T>(s: seq<T>, p: T -> bool, q: T -> bool, f: T -> int)
    requires forall i :: 0 <= i < |s| && p(s[i]) ==> q(s[i])
    requires forall i :: 0 <= i < |s| && q(s[i]) ==> f(s[i]) >= 0
    ensures Sum(Filter(s, p), f) <= Sum(Filter(s, q), f)
  {
    if s != [] {
      SumFilterMonotone(s[1..], p, q, f);
      var head := [s[0]];
      SumAppend(if p(s[0]) then head else [], Filter(s[1..], p), f);
      SumAppend(if q(s[0]) then head else [], Filter(s[1..], q), f);
    }
  }

  /** When at most one element satisfies `p`, deleting the one found leaves
      none that does. */
  lemma RemoveFirstLeavesNone<T>(s: seq<T>, p: T -> bool)
    requires forall i, j :: 0 <= i < j < |s| && p(s[i]) ==> !p(s[j])
    ensures forall i :: 0 <= i < |RemoveFirst(s, p)| ==> !p(RemoveFirst(s, p)[i])
  {
    match FirstIndex(s, p)
    case None =>
    case Some(k) =>
      var r := RemoveFirst(s, p);
      forall i | 0 <= i < |r| ensures !p(r[i]) {
        if i >= k {
          assert r[i] == s[i + 1];
        } else {
          assert r[i] == s[i];
        }
      }
  }
}
