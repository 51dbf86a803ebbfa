/** Sequence operations behind JavaScript's `Array.prototype.filter`, `includes`,
    spread-append and `sort` as the model uses them. */
module Lists {

  /** `s.filter(p)`: the elements of `s` that satisfy `p`, in their original order. */
  function Filter<T(==,!new)>(s: seq<T>, p: T -> bool): (r: seq<T>)
    ensures |r| <= |s|
    ensures forall x :: x in r <==> x in s && p(x)
  {
    if s == [] then []
    else if p(s[0]) then [s[0]] + Filter(s[1..], p)
    else Filter(s[1..], p)
  }

  /** `sub` is `s` with some elements removed and the rest kept in order. */
  predicate IsSubsequence<T(==,!new)>(sub: seq<T>, s: seq<T>)
    decreases |s|
  {
    sub == [] || (s != [] && ((sub[0] == s[0] && IsSubsequence(sub[1..], s[1..])) || IsSubsequence(sub, s[1..])))
  }

  lemma {:induction false} FilterIsSubsequence<T(!new)>(s: seq<T>, p: T -> bool)
    ensures IsSubsequence(Filter(s, p), s)
  {
    if s != [] {
      FilterIsSubsequence(s[1..], p);
      if p(s[0]) {
        assert Filter(s, p)[1..] == Filter(s[1..], p);
      }
    }
  }

  /** A filter that keeps every element of `s` returns `s` itself. */
  lemma {:induction false} FilterAll<T(!new)>(s: seq<T>, p: T -> bool)
    requires forall x :: x in s ==> p(x)
    ensures Filter(s, p) == s
  {
    if s != [] {
      FilterAll(s[1..], p);
    }
  }

  /** Two filters in a row are one filter by the conjunction. */
  lemma {:induction false} FilterFilter<T(!new)>(s: seq<T>, p: T -> bool, q: T -> bool, pq: T -> bool)
    requires forall x :: pq(x) == (p(x) && q(x))
    ensures Filter(Filter(s, p), q) == Filter(s, pq)
  {
    if s != [] {
      FilterFilter(s[1..], p, q, pq);
      if p(s[0]) {
        assert Filter(s, p) == [s[0]] + Filter(s[1..], p);
        assert Filter(s, p)[1..] == Filter(s[1..], p);
      }
    }
  }

  /** Filters by predicates that agree on every element give the same result. */
  lemma {:induction false} FilterSame<T(!new)>(s: seq<T>, p: T -> bool, q: T -> bool)
    requires forall x :: x in s ==> p(x) == q(x)
    ensures Filter(s, p) == Filter(s, q)
  {
    if s != [] {
      FilterSame(s[1..], p, q);
    }
  }

  /** Filtering distributes over appending one element at the end. */
  lemma {:induction false} FilterAppendOne<T(!new)>(s: seq<T>, x: T, p: T -> bool)
    ensures Filter(s + [x], p) == Filter(s, p) + (if p(x) then [x] else [])
  {
    if s == [] {
      assert s + [x] == [x];
    } else {
      assert (s + [x])[1..] == s[1..] + [x];
      FilterAppendOne(s[1..], x, p);
    }
  }

  /** The order in which two filters are applied does not matter. */
  lemma FilterCommutes<T(!new)>(s: seq<T>, p: T -> bool, q: T -> bool)
    ensures Filter(Filter(s, p), q) == Filter(Filter(s, q), p)
  {
    var pq := x => p(x) && q(x);
    var qp := x => q(x) && p(x);
    FilterFilter(s, p, q, pq);
    FilterFilter(s, q, p, qp);
    FilterSame(s, pq, qp);
  }

  /** Filtering a second time by the same predicate changes nothing. */
  lemma FilterIdempotent<T(!new)>(s: seq<T>, p: T -> bool)
    ensures Filter(Filter(s, p), p) == Filter(s, p)
  {
    FilterAll(Filter(s, p), p);
  }

  predicate NoDuplicates<T(==,!new)>(s: seq<T>) {
    forall i, j :: 0 <= i < j < |s| ==> s[i] != s[j]
  }

  /** `s.filter(y => y !== x)`: every occurrence of `x` removed, the rest kept in order. */
  function RemoveAll<T(==,!new)>(s: seq<T>, x: T): (r: seq<T>)
    ensures |r| <= |s|
    ensures x !in r
    ensures forall y :: y != x ==> (y in r <==> y in s)
    ensures x in s ==> |r| < |s|
  {
    if s == [] then []
    else if s[0] == x then RemoveAll(s[1..], x)
    else [s[0]] + RemoveAll(s[1..], x)
  }

  lemma {:induction false} RemoveAllNoDuplicates<T(!new)>(s: seq<T>, x: T)
    requires NoDuplicates(s)
    ensures NoDuplicates(RemoveAll(s, x))
  {
    if s != [] {
      RemoveAllNoDuplicates(s[1..], x);
      if s[0] != x {
        var r := RemoveAll(s[1..], x);
        assert s[0] !in s[1..];
        assert s[0] !in r;
        assert RemoveAll(s, x) == [s[0]] + r;
      }
    }
  }

  lemma {:induction false} RemoveAllAbsent<T(!new)>(s: seq<T>, x: T)
    requires x !in s
    ensures RemoveAll(s, x) == s
  {
    if s != [] {
      RemoveAllAbsent(s[1..], x);
    }
  }

  lemma {:induction false} RemoveAllAppend<T(!new)>(s: seq<T>, t: seq<T>, x: T)
    ensures RemoveAll(s + t, x) == RemoveAll(s, x) + RemoveAll(t, x)
  {
    if s == [] {
      assert s + t == t;
    } else {
      var st := s + t;
      assert st[0] == s[0];
      assert st[1..] == s[1..] + t;
      RemoveAllAppend(s[1..], t, x);
      if s[0] == x {
        assert RemoveAll(st, x) == RemoveAll(st[1..], x);
      } else {
        assert RemoveAll(st, x) == [s[0]] + RemoveAll(st[1..], x);
        assert RemoveAll(s, x) == [s[0]] + RemoveAll(s[1..], x);
      }
    }
  }

  /** Each element is smaller than the next: sorted ascending with no repeats. */
  predicate StrictlyIncreasing(s: seq<int>) {
    forall i, j :: 0 <= i < j < |s| ==> s[i] < s[j]
  }

  /** Puts `x` into a strictly increasing sequence at its place: what `[...s, x].sort(...)`
      gives when `x` is not yet there. */
  function Insert(s: seq<int>, x: int): (r: seq<int>)
    requires StrictlyIncreasing(s) && x !in s
    ensures StrictlyIncreasing(r)
    ensures |r| == |s| + 1
    ensures forall y :: y in r <==> y in s || y == x
  {
    if s == [] || x < s[0] then [x] + s
    else
      var tail := Insert(s[1..], x);
      assert forall k :: 0 <= k < |tail| ==> s[0] < tail[k] by {
        forall k | 0 <= k < |tail|
          ensures s[0] < tail[k]
        {
          assert tail[k] in tail;
          if tail[k] != x {
            var j :| 0 <= j < |s[1..]| && s[1..][j] == tail[k];
            assert s[j + 1] == tail[k];
          }
        }
      }
      var r := [s[0]] + tail;
      assert forall i :: 0 < i < |r| ==> r[i] == tail[i - 1];
      r
  }

  /** Removing elements keeps a strictly increasing sequence strictly increasing. */
  lemma {:induction false} RemoveAllIncreasing(s: seq<int>, x: int)
    requires StrictlyIncreasing(s)
    ensures StrictlyIncreasing(RemoveAll(s, x))
  {
    if s != [] {
      RemoveAllIncreasing(s[1..], x);
      if s[0] != x {
        var r := RemoveAll(s[1..], x);
        forall k | 0 <= k < |r|
          ensures s[0] < r[k]
        {
          assert r[k] in r;
          var j :| 0 <= j < |s[1..]| && s[1..][j] == r[k];
          assert s[j + 1] == r[k];
        }
        var t := [s[0]] + r;
        assert forall i :: 0 < i < |t| ==> t[i] == r[i - 1];
      }
    }
  }

  /** A strictly increasing sequence is determined by its elements: two with the same
      members are equal. So `Insert` is exactly the sorted `s + [x]`. */
  lemma {:induction false} IncreasingUnique(a: seq<int>, b: seq<int>)
    requires StrictlyIncreasing(a) && StrictlyIncreasing(b)
    requires forall y :: y in a <==> y in b
    ensures a == b
    decreases |a|
  {
    assert a != [] ==> a[0] in a;
    assert b != [] ==> b[0] in b;
    if a != [] && b != [] {
      assert a[0] == b[0] by {
        assert a[0] in b && b[0] in a;
        var i :| 0 <= i < |b| && b[i] == a[0];
        var j :| 0 <= j < |a| && a[j] == b[0];
        assert b[0] <= b[i] && a[0] <= a[j];
      }
      forall y
        ensures y in a[1..] <==> y in b[1..]
      {
        if y in a[1..] {
          var i :| 1 <= i < |a| && a[i] == y;
          assert y in b && y != b[0];
        }
        if y in b[1..] {
          var i :| 1 <= i < |b| && b[i] == y;
          assert y in a && y != a[0];
        }
      }
      IncreasingUnique(a[1..], b[1..]);
      assert a == [a[0]] + a[1..] && b == [b[0]] + b[1..];
    }
  }
}
