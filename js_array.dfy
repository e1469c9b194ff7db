/**
 * The JavaScript array built-ins the application relies on: `filter`,
 * `map`, `slice` (with its negative-index rules) and the `first()` of a
 * filtered database query.
 */
module JsArray {

  import opened Wrappers

  /** `s.filter(keep)`. */
  function Filter<T(==)>(s: seq<T>, keep: T -> bool): (r: seq<T>)
    ensures |r| <= |s|
    ensures forall i :: 0 <= i < |r| ==> r[i] in s && keep(r[i])
    ensures forall i :: 0 <= i < |s| && keep(s[i]) ==> s[i] in r
  {
    if s == [] then []
    else if keep(s[0]) then [s[0]] + Filter(s[1..], keep)
    else Filter(s[1..], keep)
  }

  lemma {:induction false} FilterAppend<T>(a: seq<T>, b: seq<T>, keep: T -> bool)
    ensures Filter(a + b, keep) == Filter(a, keep) + Filter(b, keep)
  {
    if a == [] {
      assert a + b == b;
    } else {
      var ab := a + b;
      assert ab != [] && ab[0] == a[0] && ab[1..] == a[1..] + b;
      FilterAppend(a[1..], b, keep);
      var fa, fr, fb := Filter(a[1..], keep), Filter(ab[1..], keep), Filter(b, keep);
      assert fr == fa + fb;
      if keep(a[0]) {
        assert [a[0]] + fr == ([a[0]] + fa) + fb;
      }
    }
  }

  /** `r` holds every copy of each value of `s` that `keep` accepts, and no
      other value. */
  ghost predicate KeepsCounts<T(!new)>(r: seq<T>, s: seq<T>, keep: T -> bool) {
    forall x :: multiset(r)[x] == if keep(x) then multiset(s)[x] else 0
  }

  /** A filter keeps every copy of a kept value and no copy of a dropped
      one: with `IsSubsequence` this fixes its result. */
  lemma {:induction false} FilterCount<T(!new)>(s: seq<T>, keep: T -> bool)
    ensures KeepsCounts(Filter(s, keep), s, keep)
  {
    if s != [] {
      FilterCount(s[1..], keep);
      assert s == [s[0]] + s[1..];
      FilterHead(s, keep);
    }
  }

  /** A filter that keeps every element returns the sequence unchanged. */
  lemma {:induction false} FilterAll<T>(s: seq<T>, keep: T -> bool)
    requires forall i :: 0 <= i < |s| ==> keep(s[i])
    ensures Filter(s, keep) == s
  {
    if s != [] {
      FilterAll(s[1..], keep);
    }
  }

  /** A filter that keeps no element returns the empty sequence. */
  lemma {:induction false} FilterNone<T>(s: seq<T>, keep: T -> bool)
    requires forall i :: 0 <= i < |s| ==> !keep(s[i])
    ensures Filter(s, keep) == []
  {
    if s != [] {
      FilterNone(s[1..], keep);
    }
  }

  /** `s.map(f)`. */
  function Map<T, U>(s: seq<T>, f: T -> U): (r: seq<U>)
    ensures |r| == |s| && forall i :: 0 <= i < |s| ==> r[i] == f(s[i])
  {
    seq(|s|, i requires 0 <= i < |s| => f(s[i]))
  }

  /** Mapping then filtering on the mapped value is filtering on the mapped
      value (`keepBefore`), then mapping. */
  lemma {:induction false} FilterMapCommute<T, U>(s: seq<T>, f: T -> U, keep: U -> bool, keepBefore: T -> bool)
    requires forall x :: keepBefore(x) == keep(f(x))
    ensures Filter(Map(s, f), keep) == Map(Filter(s, keepBefore), f)
  {
    if s != [] {
      FilterMapCommute(s[1..], f, keep, keepBefore);
      assert Map(s, f)[1..] == Map(s[1..], f);
    }
  }

  /** A value mapped from a repeated element and kept by the filter comes
      out twice: neither `map` nor `filter` drops repeats. */
  lemma RepeatSurvivesMapFilter<T, U>(x: T, f: T -> U, keep: U -> bool)
    requires keep(f(x))
    ensures multiset(Filter(Map([x, x], f), keep))[f(x)] == 2
  {
    var m := Map([x, x], f);
    assert m == [f(x), f(x)];
    assert m[1..] == [f(x)] && m[1..][1..] == [];
  }

  /** `sub` keeps some elements of `s`, in their order in `s`. */
  predicate IsSubsequence<T(==)>(sub: seq<T>, s: seq<T>)
    decreases |s|
  {
    || sub == []
    || (s != [] && ((sub[0] == s[0] && IsSubsequence(sub[1..], s[1..])) || IsSubsequence(sub, s[1..])))
  }

  /** A filter keeps a subsequence: nothing is added and nothing is reordered. */
  lemma {:induction false} FilterIsSubsequence<T>(s: seq<T>, keep: T -> bool)
    ensures IsSubsequence(Filter(s, keep), s)
  {
    if s != [] {
      FilterIsSubsequence(s[1..], keep);
    }
  }

  lemma {:induction false} SubsequenceMembers<T>(sub: seq<T>, s: seq<T>)
    requires IsSubsequence(sub, s)
    ensures forall x :: x in sub ==> x in s
    decreases |s|
  {
    if sub != [] {
      if sub[0] == s[0] && IsSubsequence(sub[1..], s[1..]) {
        SubsequenceMembers(sub[1..], s[1..]);
        forall x | x in sub ensures x in s {
          if x != sub[0] { assert x in sub[1..]; }
        }
      } else {
        SubsequenceMembers(sub, s[1..]);
      }
    }
  }

  /** No value occurs twice. */
  predicate Distinct<T(==)>(s: seq<T>) {
    forall i, j :: 0 <= i < j < |s| ==> s[i] != s[j]
  }

  lemma {:induction false} SubsequenceDistinct<T>(sub: seq<T>, s: seq<T>)
    requires IsSubsequence(sub, s) && Distinct(s)
    ensures Distinct(sub)
    decreases |s|
  {
    if sub != [] {
      if sub[0] == s[0] && IsSubsequence(sub[1..], s[1..]) {
        SubsequenceDistinct(sub[1..], s[1..]);
        SubsequenceMembers(sub[1..], s[1..]);
        forall j | 0 < j < |sub| ensures sub[0] != sub[j] {
          assert sub[j] == sub[1..][j - 1];
          assert sub[j] in s[1..];
        }
      } else {
        SubsequenceDistinct(sub, s[1..]);
      }
    }
  }

  /** The index form of `slice`'s start and end arguments: a negative index
      counts from the end, and both are clamped to `[0, n]`. */
  function RelativeIndex(k: int, n: nat): (r: nat)
    ensures r <= n
    ensures 0 <= k ==> r == if k < n then k else n
  {
    if k < 0 then (if n + k < 0 then 0 else n + k)
    else if k < n then k else n
  }

  /** `s.slice(start, end)`. */
  function Slice<T>(s: seq<T>, start: int, end: int): (r: seq<T>)
    ensures |r| <= |s|
  {
    var from, to := RelativeIndex(start, |s|), RelativeIndex(end, |s|);
    if from < to then s[from..to] else []
  }

  /** With non-negative arguments `slice` is the window `[start, end)` cut to
      the sequence: it is no longer than `end - start`, and it is exactly that
      long when the sequence reaches `end`. */
  lemma SliceWindow<T>(s: seq<T>, start: int, end: int)
    ensures 0 <= start <= end ==> var r := Slice(s, start, end);
      && |r| <= end - start
      && (end <= |s| ==> r == s[start..end])
      && (start <= |s| < end ==> r == s[start..])
      && (|s| < start ==> r == [])
  {
  }

  /** `slice(0, end)` is a prefix. */
  lemma SlicePrefix<T>(s: seq<T>, end: int)
    ensures Slice(s, 0, end) == s[..RelativeIndex(end, |s|)]
  {
  }

  /** A prefix of a duplicate-free sequence is duplicate-free. */
  lemma PrefixDistinct<T>(s: seq<T>, n: nat)
    requires Distinct(s) && n <= |s|
    ensures Distinct(s[..n])
  {
    forall i, j | 0 <= i < j < n ensures s[..n][i] != s[..n][j] {
      assert s[..n][i] == s[i] && s[..n][j] == s[j];
    }
  }

  /** A filter of a duplicate-free sequence is duplicate-free. */
  lemma FilterDistinct<T>(s: seq<T>, keep: T -> bool)
    requires Distinct(s)
    ensures Distinct(Filter(s, keep))
  {
    FilterIsSubsequence(s, keep);
    SubsequenceDistinct(Filter(s, keep), s);
  }

  /** `s.filter(p).first()` as an index: the first position whose element
      satisfies `p`, if any. */
  function First<T>(s: seq<T>, p: T -> bool): (r: Option<nat>)
    ensures r.Some? ==> r.value < |s| && p(s[r.value])
    ensures r.Some? ==> forall i :: 0 <= i < r.value ==> !p(s[i])
    ensures r.None? <==> forall i :: 0 <= i < |s| ==> !p(s[i])
  {
    if s == [] then None
    else if p(s[0]) then Some(0)
    else match First(s[1..], p)
      case None => None
      case Some(k) => Some(k + 1)
  }

  // ---------------------------------------------------------------------
  // `sort` with a numeric key, largest first

  predicate SortedDescendingBy<T>(s: seq<T>, key: T -> int) {
    forall i, j :: 0 <= i < j < |s| ==> key(s[i]) >= key(s[j])
  }

  /** The elements whose key is `v`. */
  function KeyIs<T>(key: T -> int, v: int): T -> bool {
    x => key(x) == v
  }

  /** `x` placed before the first element whose key is below its own, after
      every element whose key is at least its own. */
  function InsertByKey<T>(x: T, s: seq<T>, key: T -> int): (r: seq<T>)
    ensures multiset(r) == multiset(s) + multiset{x}
  {
    if s == [] || key(s[0]) < key(x) then [x] + s
    else
      assert s == [s[0]] + s[1..];
      [s[0]] + InsertByKey(x, s[1..], key)
  }

  lemma {:induction false} InsertKeepsSorted<T>(x: T, s: seq<T>, key: T -> int)
    requires SortedDescendingBy(s, key)
    ensures SortedDescendingBy(InsertByKey(x, s, key), key)
  {
    if s != [] && key(s[0]) >= key(x) {
      var tail := s[1..];
      InsertKeepsSorted(x, tail, key);
      var rest := InsertByKey(x, tail, key);
      var r := [s[0]] + rest;
      forall i, j | 0 <= i < j < |r| ensures key(r[i]) >= key(r[j]) {
        var y := rest[j - 1];
        assert r[j] == y;
        if i == 0 {
          assert y in multiset(rest);
          if y != x {
            assert y in multiset(tail);
            var k :| 0 <= k < |tail| && tail[k] == y;
            assert s[k + 1] == y;
          }
        } else {
          assert r[i] == rest[i - 1];
        }
      }
    }
  }

  /** In a sorted sequence, `x` goes after every element with its key: each
      class of equal keys gets `x` at its end when `x` belongs to it. */
  lemma {:induction false} InsertKeyClass<T>(x: T, s: seq<T>, key: T -> int, v: int)
    requires SortedDescendingBy(s, key)
    ensures Filter(InsertByKey(x, s, key), KeyIs(key, v))
         == Filter(s, KeyIs(key, v)) + (if key(x) == v then [x] else [])
  {
    var inClass := KeyIs(key, v);
    var r := InsertByKey(x, s, key);
    if s == [] || key(s[0]) < key(x) {
      assert r[1..] == s;
      if key(x) == v {
        FilterNone(s, inClass);
      }
    } else {
      InsertKeyClass(x, s[1..], key, v);
      assert r[1..] == InsertByKey(x, s[1..], key);
    }
  }

  /** `s.sort((a, b) => key(b) - key(a))`. The engine's sort is stable, and
      a stable sort's output is fixed by the comparator: the elements
      reordered by key, largest first, each class of equal keys in its
      original order (see `SortDescendingByIsStable`). Insertion sort
      computes that output. */
  function SortDescendingBy<T>(s: seq<T>, key: T -> int): (r: seq<T>)
    ensures multiset(r) == multiset(s)
    decreases |s|
  {
    if s == [] then []
    else
      assert s == s[..|s| - 1] + [s[|s| - 1]];
      InsertByKey(s[|s| - 1], SortDescendingBy(s[..|s| - 1], key), key)
  }

  /** Fewer than two elements are left as they are. */
  lemma SortShort<T>(s: seq<T>, key: T -> int)
    requires |s| < 2
    ensures SortDescendingBy(s, key) == s
  {
    if |s| == 1 {
      assert s[..0] == [];
    }
  }

  lemma {:induction false} SortDescendingBySorted<T>(s: seq<T>, key: T -> int)
    ensures SortedDescendingBy(SortDescendingBy(s, key), key)
    decreases |s|
  {
    if s != [] {
      var init := s[..|s| - 1];
      SortDescendingBySorted(init, key);
      InsertKeepsSorted(s[|s| - 1], SortDescendingBy(init, key), key);
    }
  }

  lemma {:induction false} SortDescendingByClass<T>(s: seq<T>, key: T -> int, v: int)
    ensures Filter(SortDescendingBy(s, key), KeyIs(key, v)) == Filter(s, KeyIs(key, v))
    decreases |s|
  {
    if s != [] {
      var init, last := s[..|s| - 1], s[|s| - 1];
      var sortedInit, inClass := SortDescendingBy(init, key), KeyIs(key, v);
      SortDescendingByClass(init, key, v);
      SortDescendingBySorted(init, key);
      InsertKeyClass(last, sortedInit, key, v);
      assert s == init + [last];
      FilterAppend(init, [last], inClass);
      calc {
        Filter(SortDescendingBy(s, key), inClass);
        Filter(InsertByKey(last, sortedInit, key), inClass);
        Filter(sortedInit, inClass) + (if key(last) == v then [last] else []);
        Filter(init, inClass) + Filter([last], inClass);
      }
    }
  }

  /** The sort is sorted and stable: each class of equal keys keeps its
      input order. */
  lemma SortDescendingByIsStable<T>(s: seq<T>, key: T -> int)
    ensures SortedDescendingBy(SortDescendingBy(s, key), key)
    ensures forall v :: Filter(SortDescendingBy(s, key), KeyIs(key, v)) == Filter(s, KeyIs(key, v))
  {
    SortDescendingBySorted(s, key);
    forall v ensures Filter(SortDescendingBy(s, key), KeyIs(key, v)) == Filter(s, KeyIs(key, v)) {
      SortDescendingByClass(s, key, v);
    }
  }

  /** A key present in a sequence has a non-empty class. */
  lemma ClassOfMember<T>(s: seq<T>, key: T -> int, i: int)
    requires 0 <= i < |s|
    ensures Filter(s, KeyIs(key, key(s[i]))) != []
  {
    assert KeyIs(key, key(s[i]))(s[i]);
  }

  /** A sorted sequence holding an element with key `v` starts with a key of
      at least `v`. */
  lemma TopKeyAtLeast<T>(s: seq<T>, key: T -> int, v: int)
    requires SortedDescendingBy(s, key) && Filter(s, KeyIs(key, v)) != []
    ensures s != [] && key(s[0]) >= v
  {
    var x := Filter(s, KeyIs(key, v))[0];
    assert x in s && key(x) == v;
    var j :| 0 <= j < |s| && s[j] == x;
  }

  /** Two sorted sequences with the same classes start with the same element. */
  lemma SameHead<T>(a: seq<T>, b: seq<T>, key: T -> int)
    requires SortedDescendingBy(a, key) && SortedDescendingBy(b, key) && a != []
    requires forall v :: Filter(a, KeyIs(key, v)) == Filter(b, KeyIs(key, v))
    ensures b != [] && a[0] == b[0]
  {
    ClassOfMember(a, key, 0);
    TopKeyAtLeast(b, key, key(a[0]));
    ClassOfMember(b, key, 0);
    TopKeyAtLeast(a, key, key(b[0]));
    var inTop := KeyIs(key, key(a[0]));
    assert Filter(a, inTop)[0] == a[0];
    assert Filter(b, inTop)[0] == b[0];
  }

  lemma FilterHead<T>(s: seq<T>, keep: T -> bool)
    requires s != []
    ensures Filter(s, keep) == (if keep(s[0]) then [s[0]] else []) + Filter(s[1..], keep)
  {
  }

  /** Dropping a common head keeps the classes equal. */
  lemma SameTailClasses<T>(a: seq<T>, b: seq<T>, key: T -> int, v: int)
    requires a != [] && b != [] && a[0] == b[0]
    requires Filter(a, KeyIs(key, v)) == Filter(b, KeyIs(key, v))
    ensures Filter(a[1..], KeyIs(key, v)) == Filter(b[1..], KeyIs(key, v))
  {
    var inClass := KeyIs(key, v);
    FilterHead(a, inClass);
    FilterHead(b, inClass);
    var head := if inClass(a[0]) then [a[0]] else [];
    assert head + Filter(a[1..], inClass) == head + Filter(b[1..], inClass);
    assert Filter(a[1..], inClass) == (head + Filter(a[1..], inClass))[|head|..];
    assert Filter(b[1..], inClass) == (head + Filter(b[1..], inClass))[|head|..];
  }

  /** Any two orderings that are sorted by key and keep the same order
      inside each class of equal keys are the same sequence: whatever stable
      algorithm the engine runs, it returns `SortDescendingBy`. */
  lemma {:induction false} StableSortUnique<T>(a: seq<T>, b: seq<T>, key: T -> int)
    requires SortedDescendingBy(a, key) && SortedDescendingBy(b, key)
    requires forall v :: Filter(a, KeyIs(key, v)) == Filter(b, KeyIs(key, v))
    ensures a == b
    decreases |a|
  {
    if a != [] {
      SameHead(a, b, key);
      forall v ensures Filter(a[1..], KeyIs(key, v)) == Filter(b[1..], KeyIs(key, v)) {
        SameTailClasses(a, b, key, v);
      }
      StableSortUnique(a[1..], b[1..], key);
      assert a == [a[0]] + a[1..] && b == [b[0]] + b[1..];
    } else if b != [] {
      SameHead(b, a, key);
    }
  }
}
