/** Python's `sorted(xs, key=...)`: a stable sort. It is modelled as an
    insertion sort under a total preorder `le` ("key(a) <= key(b)"), and proved
    to return a permutation of its input, in order, with the elements of equal
    key in their input order. */
module StableSort {

  ghost predicate TotalPreorder<T(!new)>(le: (T, T) -> bool) {
    && (forall a, b :: le(a, b) || le(b, a))
    && (forall a, b, c :: le(a, b) && le(b, c) ==> le(a, c))
  }

  ghost predicate Sorted<T>(s: seq<T>, le: (T, T) -> bool) {
    forall i, j :: 0 <= i < j < |s| ==> le(s[i], s[j])
  }

  /** Same key as `v`. */
  predicate Equivalent<T>(x: T, v: T, le: (T, T) -> bool) {
    le(x, v) && le(v, x)
  }

  /** The elements of `s` with the same key as `v`, in order. */
  function SameKey<T>(s: seq<T>, v: T, le: (T, T) -> bool): seq<T> {
    if s == [] then []
    else (if Equivalent(s[0], v, le) then [s[0]] else []) + SameKey(s[1..], v, le)
  }

  /** No two elements share an image under `f`. */
  ghost predicate DistinctBy<T, U>(s: seq<T>, f: T -> U) {
    forall i, j :: 0 <= i < j < |s| ==> f(s[i]) != f(s[j])
  }

  /** `x` goes before the first element it is not strictly after. */
  function Insert<T>(x: T, s: seq<T>, le: (T, T) -> bool): seq<T> {
    if s == [] || le(x, s[0]) then [x] + s
    else [s[0]] + Insert(x, s[1..], le)
  }

  function Sort<T>(s: seq<T>, le: (T, T) -> bool): seq<T> {
    if s == [] then [] else Insert(s[0], Sort(s[1..], le), le)
  }

  lemma {:induction false} InsertPermutes<T>(x: T, s: seq<T>, le: (T, T) -> bool)
    ensures multiset(Insert(x, s, le)) == multiset(s) + multiset{x}
    ensures |Insert(x, s, le)| == |s| + 1
  {
    if s == [] || le(x, s[0]) {
    } else {
      InsertPermutes(x, s[1..], le);
      assert s == [s[0]] + s[1..];
    }
  }

  lemma {:induction false} SortPermutes<T>(s: seq<T>, le: (T, T) -> bool)
    ensures multiset(Sort(s, le)) == multiset(s)
    ensures |Sort(s, le)| == |s|
  {
    if s != [] {
      SortPermutes(s[1..], le);
      InsertPermutes(s[0], Sort(s[1..], le), le);
      assert s == [s[0]] + s[1..];
    }
  }

  lemma {:induction false} InsertSorted<T(!new)>(x: T, s: seq<T>, le: (T, T) -> bool)
    requires TotalPreorder(le)
    requires Sorted(s, le)
    ensures Sorted(Insert(x, s, le), le)
  {
    if s == [] || le(x, s[0]) {
    } else {
      var t := Insert(x, s[1..], le);
      InsertSorted(x, s[1..], le);
      InsertPermutes(x, s[1..], le);
      forall k | 0 <= k < |t| ensures le(s[0], t[k]) {
        assert t[k] in multiset(t);
        assert t[k] == x || t[k] in multiset(s[1..]);
        if t[k] != x {
          var m :| 0 <= m < |s[1..]| && s[1..][m] == t[k];
          assert s[m + 1] == t[k];
        }
      }
    }
  }

  /** The result is in `le` order. */
  lemma {:induction false} SortSorted<T(!new)>(s: seq<T>, le: (T, T) -> bool)
    requires TotalPreorder(le)
    ensures Sorted(Sort(s, le), le)
  {
    if s != [] {
      SortSorted(s[1..], le);
      InsertSorted(s[0], Sort(s[1..], le), le);
    }
  }

  /** `SameKey` of a sequence with a new first element. */
  lemma SameKeyCons<T>(x: T, s: seq<T>, v: T, le: (T, T) -> bool)
    ensures SameKey([x] + s, v, le) == SameKey([x], v, le) + SameKey(s, v, le)
  {
    assert ([x] + s)[1..] == s;
    assert [x][1..] == [];
  }

  lemma {:induction false} InsertStable<T(!new)>(x: T, s: seq<T>, v: T, le: (T, T) -> bool)
    requires TotalPreorder(le)
    ensures SameKey(Insert(x, s, le), v, le) == SameKey([x], v, le) + SameKey(s, v, le)
  {
    SameKeyCons(x, s, v, le);
    if s == [] || le(x, s[0]) {
    } else {
      InsertStable(x, s[1..], v, le);
      // x is strictly after s[0], so at most one of them has the key of v
      assert !(Equivalent(x, v, le) && Equivalent(s[0], v, le));
      SameKeyCons(s[0], s[1..], v, le);
      assert s == [s[0]] + s[1..];
    }
  }

  /** Stability: the elements of any one key come out in their input order. */
  lemma {:induction false} SortStable<T(!new)>(s: seq<T>, v: T, le: (T, T) -> bool)
    requires TotalPreorder(le)
    ensures SameKey(Sort(s, le), v, le) == SameKey(s, v, le)
  {
    if s != [] {
      SortStable(s[1..], v, le);
      InsertStable(s[0], Sort(s[1..], le), v, le);
      SameKeyCons(s[0], s[1..], v, le);
      assert [s[0]] + s[1..] == s;
    }
  }

  /** Elements with pairwise distinct images under `f` keep them distinct. */
  lemma {:induction false} SortDistinctBy<T, U>(s: seq<T>, f: T -> U, le: (T, T) -> bool)
    requires DistinctBy(s, f)
    ensures DistinctBy(Sort(s, le), f)
  {
    if s != [] {
      var t := Sort(s[1..], le);
      SortDistinctBy(s[1..], f, le);
      SortPermutes(s[1..], le);
      forall y | y in t ensures f(y) != f(s[0]) {
        assert y in multiset(s[1..]);
        var m :| 0 <= m < |s[1..]| && s[1..][m] == y;
        assert s[m + 1] == y;
      }
      InsertDistinctBy(s[0], t, f, le);
    }
  }

  lemma {:induction false} InsertDistinctBy<T, U>(x: T, s: seq<T>, f: T -> U, le: (T, T) -> bool)
    requires DistinctBy(s, f)
    requires forall y :: y in s ==> f(y) != f(x)
    ensures DistinctBy(Insert(x, s, le), f)
  {
    if s == [] || le(x, s[0]) {
      var r := [x] + s;
      forall i, j | 0 <= i < j < |r| ensures f(r[i]) != f(r[j]) {
        if i == 0 { assert r[j] in s; }
      }
    } else {
      var t := Insert(x, s[1..], le);
      InsertDistinctBy(x, s[1..], f, le);
      InsertPermutes(x, s[1..], le);
      var r := [s[0]] + t;
      forall i, j | 0 <= i < j < |r| ensures f(r[i]) != f(r[j]) {
        if i == 0 {
          assert r[j] in multiset(t);
          assert r[j] == x || r[j] in multiset(s[1..]);
          if r[j] != x {
            var m :| 0 <= m < |s[1..]| && s[1..][m] == r[j];
            assert s[m + 1] == r[j];
          } else {
            assert s[0] in s;
          }
        }
      }
    }
  }
}
