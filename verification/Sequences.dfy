/** Sequence operations that the Python code writes as comprehensions and
    built-ins: filtering, summing, reversing, taking the last n elements. */
module Sequences {

  datatype Option<+T> = None | Some(value: T)

  function Filter<T>(s: seq<T>, p: T -> bool): seq<T> {
    if s == [] then []
    else (if p(s[0]) then [s[0]] else []) + Filter(s[1..], p)
  }

  function Map<T, U>(s: seq<T>, f: T -> U): (r: seq<U>)
    ensures |r| == |s|
    ensures forall i :: 0 <= i < |s| ==> r[i] == f(s[i])
  {
    if s == [] then [] else [f(s[0])] + Map(s[1..], f)
  }

  function Sum(s: seq<real>): real {
    if s == [] then 0.0 else s[0] + Sum(s[1..])
  }

  function Reverse<T>(s: seq<T>): seq<T> {
    if s == [] then [] else Reverse(s[1..]) + [s[0]]
  }

  /** The last n elements, or all of them when there are fewer. */
  function LastN<T>(s: seq<T>, n: nat): seq<T> {
    if |s| <= n then s else s[|s| - n..]
  }

  /** The first n elements, or all of them when there are fewer: Python's s[:n]. */
  function FirstN<T>(s: seq<T>, n: nat): seq<T> {
    if |s| <= n then s else s[..n]
  }

  function Flatten<T>(ss: seq<seq<T>>): seq<T> {
    if ss == [] then [] else ss[0] + Flatten(ss[1..])
  }

  // ---- Filter ----

  lemma {:induction false} FilterConcat<T>(s: seq<T>, t: seq<T>, p: T -> bool)
    ensures Filter(s + t, p) == Filter(s, p) + Filter(t, p)
  {
    if s == [] {
      assert s + t == t;
    } else {
      var head := if p(s[0]) then [s[0]] else [];
      assert (s + t)[0] == s[0] && (s + t)[1..] == s[1..] + t;
      FilterConcat(s[1..], t, p);
      assert head + (Filter(s[1..], p) + Filter(t, p)) == (head + Filter(s[1..], p)) + Filter(t, p);
    }
  }

  lemma {:induction false} FilterSnoc<T>(s: seq<T>, x: T, p: T -> bool)
    ensures Filter(s + [x], p) == if p(x) then Filter(s, p) + [x] else Filter(s, p)
  {
    FilterConcat(s, [x], p);
    assert [x][1..] == [];
    assert Filter([x], p) == if p(x) then [x] else [];
  }

  lemma {:induction false} FilterMembers<T>(s: seq<T>, p: T -> bool)
    ensures forall x :: x in Filter(s, p) <==> x in s && p(x)
    ensures forall i :: 0 <= i < |Filter(s, p)| ==> Filter(s, p)[i] in s && p(Filter(s, p)[i])
    ensures |Filter(s, p)| <= |s|
  {
    if s != [] {
      FilterMembers(s[1..], p);
      assert forall x :: x in s <==> x == s[0] || x in s[1..];
    }
  }

  /** What a filter keeps, counted with multiplicity, does not depend on the order. */
  lemma {:induction false} FilterPermutation<T>(s: seq<T>, t: seq<T>, p: T -> bool)
    requires multiset(s) == multiset(t)
    ensures multiset(Filter(s, p)) == multiset(Filter(t, p))
  {
    if s == [] {
      SamePlaces(s, t);
    } else {
      var i := TakeOut(s, t);
      FilterPermutation(s[1..], t[..i] + t[i + 1..], p);
      FilterConcat(t[..i], t[i + 1..], p);
      FilterConcat(t[..i] + [t[i]], t[i + 1..], p);
      FilterSnoc(t[..i], t[i], p);
    }
  }

  lemma {:induction false} FilterAll<T>(s: seq<T>, p: T -> bool)
    requires forall x :: x in s ==> p(x)
    ensures Filter(s, p) == s
  {
    if s != [] { FilterAll(s[1..], p); }
  }

  lemma {:induction false} FilterNone<T>(s: seq<T>, p: T -> bool)
    requires forall x :: x in s ==> !p(x)
    ensures Filter(s, p) == []
  {
    if s != [] { FilterNone(s[1..], p); }
  }

  lemma {:induction false} FilterSame<T>(s: seq<T>, p: T -> bool, q: T -> bool)
    requires forall x :: x in s ==> p(x) == q(x)
    ensures Filter(s, p) == Filter(s, q)
  {
    if s != [] { FilterSame(s[1..], p, q); }
  }

  lemma {:induction false} FilterShorter<T>(s: seq<T>, p: T -> bool, q: T -> bool)
    requires forall x :: x in s && p(x) ==> q(x)
    ensures |Filter(s, p)| <= |Filter(s, q)|
  {
    if s != [] { FilterShorter(s[1..], p, q); }
  }

  lemma {:induction false} FilterCount<T>(s: seq<T>, p: T -> bool, x: T)
    ensures multiset(Filter(s, p))[x] == if p(x) then multiset(s)[x] else 0
  {
    if s != [] {
      FilterCount(s[1..], p, x);
      assert s == [s[0]] + s[1..];
    }
  }

  /** A filter keeps the same of a part as of the whole exactly when it keeps none of the rest. */
  lemma FilterNested<T(!new)>(part: seq<T>, whole: seq<T>, p: T -> bool)
    requires multiset(part) <= multiset(whole)
    ensures |Filter(part, p)| == |Filter(whole, p)| <==> multiset(Filter(part, p)) == multiset(Filter(whole, p))
    ensures multiset(Filter(part, p)) == multiset(Filter(whole, p)) <==>
      forall x :: x in multiset(whole) - multiset(part) ==> !p(x)
  {
    var a, b := multiset(Filter(part, p)), multiset(Filter(whole, p));
    forall x
      ensures a[x] == if p(x) then multiset(part)[x] else 0
      ensures b[x] == if p(x) then multiset(whole)[x] else 0
    {
      FilterCount(part, p, x);
      FilterCount(whole, p, x);
    }
    SameSize(a, b);
    assert |a| == |Filter(part, p)| && |b| == |Filter(whole, p)|;
    if forall x :: x in multiset(whole) - multiset(part) ==> !p(x) {
      forall x ensures a[x] == b[x] {
        assert p(x) ==> x !in multiset(whole) - multiset(part);
      }
    }
  }

  lemma SameSize<T>(a: multiset<T>, b: multiset<T>)
    requires a <= b
    ensures |a| == |b| <==> a == b
  {
    assert |b - a| == |b| - |a|;
    if |a| == |b| {
      assert b == a + (b - a);
    }
  }

  ghost function PlacesOf<T>(s: seq<T>, p: T -> bool): set<int> {
    set i | 0 <= i < |s| && p(s[i])
  }

  lemma PlacesSnoc<T>(s: seq<T>, x: T, p: T -> bool)
    ensures |PlacesOf(s + [x], p)| == |PlacesOf(s, p)| + if p(x) then 1 else 0
  {
    assert PlacesOf(s + [x], p) == PlacesOf(s, p) + if p(x) then {|s|} else {};
  }

  /** A filter keeps as many elements as there are places that satisfy it. */
  lemma {:induction false} FilterIndices<T>(s: seq<T>, p: T -> bool)
    ensures |Filter(s, p)| == |PlacesOf(s, p)|
  {
    if s == [] {
      assert PlacesOf(s, p) == {};
    } else {
      hide Filter, PlacesOf;
      var n := |s| - 1;
      FilterIndices(s[..n], p);
      assert s == s[..n] + [s[n]];
      FilterSnoc(s[..n], s[n], p);
      PlacesSnoc(s[..n], s[n], p);
    }
  }

  /** Summing over what a filter keeps is summing over everything, with nothing for the rest. */
  lemma {:induction false} SumOfKept<T>(s: seq<T>, p: T -> bool, f: T -> real, c: seq<real>)
    requires |c| == |s| && forall i :: 0 <= i < |s| ==> c[i] == if p(s[i]) then f(s[i]) else 0.0
    ensures Sum(Map(Filter(s, p), f)) == Sum(c)
  {
    if s != [] {
      SumOfKept(s[1..], p, f, c[1..]);
      SumMapCons(s, f, p);
    }
  }

  // ---- Permutations ----

  lemma SamePlaces<T>(s: seq<T>, t: seq<T>)
    requires multiset(s) == multiset(t)
    ensures |s| == |t|
    ensures forall x :: x in s <==> x in t
    ensures forall i :: 0 <= i < |s| ==> s[i] in t
  {
    assert |multiset(s)| == |s| && |multiset(t)| == |t|;
    forall x ensures x in s <==> x in t {
      assert x in s <==> x in multiset(s);
      assert x in t <==> x in multiset(t);
    }
    forall i | 0 <= i < |s| ensures s[i] in t {
      assert s[i] in multiset(s);
    }
  }

  /** A permutation of s, with one copy of s[0] taken out, permutes s[1..]. */
  lemma TakeOut<T>(s: seq<T>, t: seq<T>) returns (i: nat)
    requires multiset(s) == multiset(t) && s != []
    ensures i < |t| && t[i] == s[0]
    ensures t == t[..i] + [t[i]] + t[i + 1..]
    ensures multiset(s[1..]) == multiset(t[..i] + t[i + 1..])
    ensures |s[1..]| == |t[..i] + t[i + 1..]|
  {
    SamePlaces(s, t);
    assert s[0] in s;
    i :| 0 <= i < |t| && t[i] == s[0];
    var rest := t[..i] + t[i + 1..];
    assert t == t[..i] + [t[i]] + t[i + 1..];
    assert s == [s[0]] + s[1..];
    assert multiset(t) == multiset(rest) + multiset{s[0]};
    assert multiset(s) == multiset(s[1..]) + multiset{s[0]};
    assert multiset(rest) == multiset(t) - multiset{s[0]};
    assert multiset(s[1..]) == multiset(s) - multiset{s[0]};
  }

  lemma TailPermutation<T>(s: seq<T>, t: seq<T>)
    requires multiset(s) == multiset(t) && s != [] && t != [] && s[0] == t[0]
    ensures multiset(s[1..]) == multiset(t[1..])
  {
    assert s == [s[0]] + s[1..] && t == [s[0]] + t[1..];
    assert multiset(s[1..]) == multiset(s) - multiset{s[0]};
    assert multiset(t[1..]) == multiset(t) - multiset{s[0]};
  }

  lemma {:induction false} MapConcat<T, U>(s: seq<T>, t: seq<T>, f: T -> U)
    ensures Map(s + t, f) == Map(s, f) + Map(t, f)
  {}

  lemma {:induction false} SumConcat(s: seq<real>, t: seq<real>)
    ensures Sum(s + t) == Sum(s) + Sum(t)
  {
    if s == [] {
      assert s + t == t;
    } else {
      assert (s + t)[1..] == s[1..] + t;
      SumConcat(s[1..], t);
    }
  }

  lemma {:induction false} SumPermutation(s: seq<real>, t: seq<real>)
    requires multiset(s) == multiset(t)
    ensures Sum(s) == Sum(t)
  {
    SamePlaces(s, t);
    if s != [] {
      var i := TakeOut(s, t);
      var rest := t[..i] + t[i + 1..];
      assert t == t[..i] + ([t[i]] + t[i + 1..]);
      SumPermutation(s[1..], rest);
      SumConcat(t[..i], t[i + 1..]);
      SumConcat(t[..i], [t[i]] + t[i + 1..]);
    }
  }

  lemma {:induction false} MapPermutation<T, U>(s: seq<T>, t: seq<T>, f: T -> U)
    requires multiset(s) == multiset(t)
    ensures multiset(Map(s, f)) == multiset(Map(t, f))
  {
    if s == [] {
      SamePlaces(s, t);
    } else {
      var i := TakeOut(s, t);
      MapPermutation(s[1..], t[..i] + t[i + 1..], f);
      MapAround(t, i, f);
      assert Map(s, f) == [f(s[0])] + Map(s[1..], f);
    }
  }

  lemma MapAround<T, U>(t: seq<T>, i: nat, f: T -> U)
    requires i < |t|
    ensures multiset(Map(t, f)) == multiset(Map(t[..i] + t[i + 1..], f)) + multiset{f(t[i])}
  {
    MapSplit(t, i, f);
    MapConcat(t[..i], t[i + 1..], f);
    MiddleOut(Map(t[..i], f), f(t[i]), Map(t[i + 1..], f));
  }

  lemma MapSplit<T, U>(t: seq<T>, i: nat, f: T -> U)
    requires i < |t|
    ensures Map(t, f) == Map(t[..i], f) + [f(t[i])] + Map(t[i + 1..], f)
  {
    hide Map;
    var whole, parts := Map(t, f), Map(t[..i], f) + [f(t[i])] + Map(t[i + 1..], f);
    assert forall j :: 0 <= j < |t| ==> whole[j] == parts[j];
  }

  lemma MiddleOut<T>(u: seq<T>, x: T, v: seq<T>)
    ensures multiset(u + [x] + v) == multiset(u + v) + multiset{x}
  {}

  lemma {:induction false} SumBelow<T>(s: seq<T>, f: T -> real, p: T -> bool, q: T -> bool)
    requires forall x :: x in s ==> f(x) >= 0.0 && (p(x) ==> q(x))
    ensures Sum(Map(Filter(s, p), f)) <= Sum(Map(Filter(s, q), f))
  {
    if s != [] {
      SumBelow(s[1..], f, p, q);
      assert forall x :: x in s[1..] ==> x in s;
      SumMapCons(s, f, p);
      SumMapCons(s, f, q);
    }
  }

  lemma {:induction false} SumMapCons<T>(s: seq<T>, f: T -> real, p: T -> bool)
    requires s != []
    ensures Sum(Map(Filter(s, p), f)) == (if p(s[0]) then f(s[0]) else 0.0) + Sum(Map(Filter(s[1..], p), f))
  {
    var rest := Filter(s[1..], p);
    if p(s[0]) {
      assert Filter(s, p)[1..] == rest;
    } else {
      assert Filter(s, p) == rest;
    }
  }

  // ---- Reverse ----

  lemma {:induction false} ReverseConcat<T>(s: seq<T>, t: seq<T>)
    ensures Reverse(s + t) == Reverse(t) + Reverse(s)
  {
    if s == [] {
      assert s + t == t;
    } else {
      assert (s + t)[1..] == s[1..] + t;
      ReverseConcat(s[1..], t);
    }
  }

  lemma {:induction false} ReverseMultiset<T>(s: seq<T>)
    ensures multiset(Reverse(s)) == multiset(s) && |Reverse(s)| == |s|
  {
    if s != [] {
      ReverseMultiset(s[1..]);
      assert s == [s[0]] + s[1..];
    }
  }

  lemma {:induction false} FilterReverse<T>(s: seq<T>, p: T -> bool)
    ensures Filter(Reverse(s), p) == Reverse(Filter(s, p))
  {
    if s != [] {
      FilterReverse(s[1..], p);
      FilterSnoc(Reverse(s[1..]), s[0], p);
      if p(s[0]) {
        assert Filter(s, p)[1..] == Filter(s[1..], p);
      } else {
        assert Filter(s, p) == Filter(s[1..], p);
      }
    }
  }

  // ---- Totals of counts ----

  function Total(counts: seq<nat>): nat {
    if counts == [] then 0 else counts[0] + Total(counts[1..])
  }

  lemma {:induction false} TotalConcat(a: seq<nat>, b: seq<nat>)
    ensures Total(a + b) == Total(a) + Total(b)
  {
    if a == [] {
      assert a + b == b;
    } else {
      assert (a + b)[1..] == a[1..] + b;
      TotalConcat(a[1..], b);
    }
  }

  lemma TotalBump(counts: seq<nat>, i: nat)
    requires i < |counts|
    ensures Total(counts[i := counts[i] + 1]) == Total(counts) + 1
  {
    var c := counts[i];
    assert counts == counts[..i] + ([c] + counts[i + 1..]);
    assert counts[i := c + 1] == counts[..i] + ([c + 1] + counts[i + 1..]);
    TotalConcat(counts[..i], [c] + counts[i + 1..]);
    TotalConcat(counts[..i], [c + 1] + counts[i + 1..]);
  }

  lemma {:induction false} TotalZeros(n: nat)
    ensures Total(seq(n, i => 0)) == 0
  {
    if n > 0 {
      TotalZeros(n - 1);
      assert seq(n, i => 0)[1..] == seq(n - 1, i => 0);
    }
  }

  lemma {:induction false} TotalPermutation(a: seq<nat>, b: seq<nat>)
    requires multiset(a) == multiset(b)
    ensures Total(a) == Total(b)
  {
    if a == [] {
      SamePlaces(a, b);
    } else {
      var i := TakeOut(a, b);
      TotalPermutation(a[1..], b[..i] + b[i + 1..]);
      TotalConcat(b[..i], b[i + 1..]);
      assert b == b[..i] + ([b[i]] + b[i + 1..]);
      TotalConcat(b[..i], [b[i]] + b[i + 1..]);
    }
  }

  // ---- Removal ----

  function Without<T>(s: seq<T>, i: nat): seq<T>
    requires i < |s|
  {
    s[..i] + s[i + 1..]
  }

  lemma WithoutMembers<T>(s: seq<T>, i: nat)
    requires i < |s|
    ensures forall x :: x in Without(s, i) ==> x in s
  {}

  ghost predicate NoDuplicates<T>(s: seq<T>) {
    forall i, j :: 0 <= i < j < |s| ==> s[i] != s[j]
  }
}
