/** Python's `sorted` and `list.sort`: a stable sort by a numeric key. The
    result is pinned down by `SortIsUnique`, so nothing depends on the
    insertion sort that defines it; `reverse=True` is the negated key. */
module StableSort {
  import opened Sequences

  ghost predicate Sorted<T>(s: seq<T>, key: T -> real) {
    forall i, j :: 0 <= i < j < |s| ==> key(s[i]) <= key(s[j])
  }

  function KeyIs<T>(key: T -> real, k: real): T -> bool {
    (x: T) => key(x) == k
  }

  /** Equal keys keep the order they had. */
  ghost predicate StablePermutation<T(!new)>(s: seq<T>, t: seq<T>, key: T -> real) {
    forall k: real :: Filter(s, KeyIs(key, k)) == Filter(t, KeyIs(key, k))
  }

  function Insert<T>(x: T, s: seq<T>, key: T -> real): seq<T> {
    if s == [] then [x]
    else if key(x) <= key(s[0]) then [x] + s
    else [s[0]] + Insert(x, s[1..], key)
  }

  function Sort<T>(s: seq<T>, key: T -> real): seq<T> {
    if s == [] then [] else Insert(s[0], Sort(s[1..], key), key)
  }

  lemma {:induction false} InsertMultiset<T>(x: T, s: seq<T>, key: T -> real)
    ensures multiset(Insert(x, s, key)) == multiset(s) + multiset{x}
    ensures |Insert(x, s, key)| == |s| + 1
  {
    if s != [] && key(x) > key(s[0]) {
      InsertMultiset(x, s[1..], key);
      assert s == [s[0]] + s[1..];
    }
  }

  lemma {:induction false} SortPermutes<T>(s: seq<T>, key: T -> real)
    ensures multiset(Sort(s, key)) == multiset(s)
    ensures |Sort(s, key)| == |s|
  {
    if s != [] {
      SortPermutes(s[1..], key);
      InsertMultiset(s[0], Sort(s[1..], key), key);
      assert s == [s[0]] + s[1..];
    }
  }

  lemma {:induction false} InsertSorted<T>(x: T, s: seq<T>, key: T -> real)
    requires Sorted(s, key)
    ensures Sorted(Insert(x, s, key), key)
  {
    if s != [] && key(x) > key(s[0]) {
      InsertSorted(x, s[1..], key);
      InsertMultiset(x, s[1..], key);
      var t := Insert(x, s[1..], key);
      forall y | y in t ensures key(s[0]) <= key(y) {
        assert y in multiset(t);
        assert y in multiset(s[1..]) + multiset{x};
        assert y == x || y in s[1..];
      }
    }
  }

  lemma {:induction false} SortSorts<T>(s: seq<T>, key: T -> real)
    ensures Sorted(Sort(s, key), key)
  {
    if s != [] {
      SortSorts(s[1..], key);
      InsertSorted(s[0], Sort(s[1..], key), key);
    }
  }

  lemma {:induction false} InsertFiltered<T>(x: T, s: seq<T>, key: T -> real, p: T -> bool)
    requires Sorted(s, key)
    ensures Filter(Insert(x, s, key), p) == if p(x) then Insert(x, Filter(s, p), key) else Filter(s, p)
  {
    if s == [] {
      FilterSnoc([], x, p);
      assert [] + [x] == [x];
    } else if key(x) <= key(s[0]) {
      FilterConcat([x], s, p);
      FilterSnoc([], x, p);
      assert [] + [x] == [x];
      FilterMembers(s, p);
    } else {
      InsertFiltered(x, s[1..], key, p);
      var t := Insert(x, s[1..], key);
      assert ([s[0]] + t)[1..] == t;
      assert Filter([s[0]] + t, p) == (if p(s[0]) then [s[0]] else []) + Filter(t, p);
      if p(s[0]) {
        assert Filter(s, p)[1..] == Filter(s[1..], p);
      } else {
        assert Filter(s, p) == Filter(s[1..], p);
      }
    }
  }

  /** Sorting commutes with any filter: this is what stability buys. */
  lemma {:induction false} SortFiltered<T>(s: seq<T>, key: T -> real, p: T -> bool)
    ensures Filter(Sort(s, key), p) == Sort(Filter(s, p), key)
  {
    if s != [] {
      SortFiltered(s[1..], key, p);
      SortSorts(s[1..], key);
      InsertFiltered(s[0], Sort(s[1..], key), key, p);
      if p(s[0]) {
        assert Filter(s, p)[1..] == Filter(s[1..], p);
      } else {
        assert Filter(s, p) == Filter(s[1..], p);
      }
    }
  }

  lemma {:induction false} SortOfSorted<T>(s: seq<T>, key: T -> real)
    requires Sorted(s, key)
    ensures Sort(s, key) == s
  {
    if s != [] {
      SortOfSorted(s[1..], key);
    }
  }

  lemma SortIsStable<T(!new)>(s: seq<T>, key: T -> real)
    ensures StablePermutation(s, Sort(s, key), key)
  {
    forall k: real ensures Filter(s, KeyIs(key, k)) == Filter(Sort(s, key), KeyIs(key, k)) {
      var f := Filter(s, KeyIs(key, k));
      SortFiltered(s, key, KeyIs(key, k));
      FilterMembers(s, KeyIs(key, k));
      assert forall i :: 0 <= i < |f| ==> f[i] in f;
      SortOfSorted(f, key);
    }
  }

  /** Sorted and stable leaves one possible result: any correct stable sort computes `Sort`. */
  lemma {:induction false} SortIsUnique<T(!new)>(s: seq<T>, t: seq<T>, key: T -> real)
    requires Sorted(t, key) && StablePermutation(s, t, key)
    ensures t == Sort(s, key)
  {
    SortIsStable(s, key);
    SortSorts(s, key);
    SameStableSorted(t, Sort(s, key), key);
  }

  lemma {:induction false} SameStableSorted<T(!new)>(s: seq<T>, t: seq<T>, key: T -> real)
    requires Sorted(s, key) && Sorted(t, key) && StablePermutation(s, t, key)
    ensures s == t
  {
    if s == [] && t == [] {
    } else {
      HeadsAgree(s, t, key);
      var x := s[0];
      forall k: real ensures Filter(s[1..], KeyIs(key, k)) == Filter(t[1..], KeyIs(key, k)) {
        assert Filter(s, KeyIs(key, k)) == Filter(t, KeyIs(key, k));
        if key(x) == k {
          assert Filter(s, KeyIs(key, k))[1..] == Filter(s[1..], KeyIs(key, k));
          assert Filter(t, KeyIs(key, k))[1..] == Filter(t[1..], KeyIs(key, k));
        } else {
          assert Filter(s, KeyIs(key, k)) == Filter(s[1..], KeyIs(key, k));
          assert Filter(t, KeyIs(key, k)) == Filter(t[1..], KeyIs(key, k));
        }
      }
      SameStableSorted(s[1..], t[1..], key);
    }
  }

  lemma {:induction false} HeadsAgree<T(!new)>(s: seq<T>, t: seq<T>, key: T -> real)
    requires Sorted(s, key) && Sorted(t, key) && StablePermutation(s, t, key)
    requires s != [] || t != []
    ensures s != [] && t != [] && s[0] == t[0]
  {
    if s != [] {
      var k := key(s[0]);
      assert Filter(s, KeyIs(key, k))[0] == s[0];
      FilterMembers(t, KeyIs(key, k));
      assert Filter(t, KeyIs(key, k))[0] in t;
    }
    var k := key(t[0]);
    assert Filter(t, KeyIs(key, k))[0] == t[0];
    FilterMembers(s, KeyIs(key, k));
    assert Filter(s, KeyIs(key, k))[0] in s;
  }

  /** When equal keys mean equal elements, the order of the input is immaterial. */
  lemma {:induction false} SortPermutation<T(!new)>(s: seq<T>, t: seq<T>, key: T -> real)
    requires multiset(s) == multiset(t)
    requires forall x, y :: x in s && y in s && key(x) == key(y) ==> x == y
    ensures Sort(s, key) == Sort(t, key)
  {
    SortSorts(s, key);
    SortSorts(t, key);
    SortPermutes(s, key);
    SortPermutes(t, key);
    SamePlaces(s, Sort(s, key));
    SameSortedMultiset(Sort(s, key), Sort(t, key), key);
  }

  lemma {:induction false} SameSortedMultiset<T>(s: seq<T>, t: seq<T>, key: T -> real)
    requires Sorted(s, key) && Sorted(t, key) && multiset(s) == multiset(t)
    requires forall x, y :: x in s && y in s && key(x) == key(y) ==> x == y
    ensures s == t
  {
    SamePlaces(s, t);
    SamePlaces(t, s);
    if s != [] {
      FirstOfSorted(s, t, key);
      TailPermutation(s, t);
      SameSortedMultiset(s[1..], t[1..], key);
    }
  }

  lemma FirstOfSorted<T>(s: seq<T>, t: seq<T>, key: T -> real)
    requires Sorted(s, key) && Sorted(t, key) && s != [] && t != []
    requires s[0] in t && t[0] in s
    requires forall x, y :: x in s && y in s && key(x) == key(y) ==> x == y
    ensures s[0] == t[0]
  {
    var i :| 0 <= i < |t| && t[i] == s[0];
    var j :| 0 <= j < |s| && s[j] == t[0];
    assert key(s[0]) <= key(s[j]) && key(t[0]) <= key(t[i]);
  }

  /** Sorting in chunks is enough when no chunk reaches past the next. */
  lemma SortConcat<T(!new)>(s: seq<T>, t: seq<T>, key: T -> real)
    requires forall x, y :: x in s && y in t ==> key(x) <= key(y)
    ensures Sort(s + t, key) == Sort(s, key) + Sort(t, key)
  {
    var r := Sort(s, key) + Sort(t, key);
    SortIsStable(s, key);
    SortIsStable(t, key);
    forall k: real ensures Filter(s + t, KeyIs(key, k)) == Filter(r, KeyIs(key, k)) {
      FilterConcat(s, t, KeyIs(key, k));
      FilterConcat(Sort(s, key), Sort(t, key), KeyIs(key, k));
      assert Filter(s, KeyIs(key, k)) == Filter(Sort(s, key), KeyIs(key, k));
      assert Filter(t, KeyIs(key, k)) == Filter(Sort(t, key), KeyIs(key, k));
    }
    SortSorts(s, key);
    SortSorts(t, key);
    SortPermutes(s, key);
    SortPermutes(t, key);
    SamePlaces(Sort(s, key), s);
    SamePlaces(Sort(t, key), t);
    SortIsUnique(s + t, r, key);
  }

  /** The last element of a sort carries the largest key. */
  lemma SortLast<T>(s: seq<T>, key: T -> real)
    requires s != []
    ensures |Sort(s, key)| == |s|
    ensures Sort(s, key)[|s| - 1] in s
    ensures forall x :: x in s ==> key(x) <= key(Sort(s, key)[|s| - 1])
  {
    SortPermutes(s, key);
    SortSorts(s, key);
    SamePlaces(Sort(s, key), s);
  }
}
