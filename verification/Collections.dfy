/** Finite sets and sequences: least elements, sizes, repetition. */
module Collections {
  predicate IsLeast<K(!new)>(ks: set<K>, age: map<K, real>, k: K)
    requires ks <= age.Keys
  {
    k in ks && forall j :: j in ks ==> age[k] <= age[j]
  }

  lemma LeastExists<K(!new)>(ks: set<K>, age: map<K, real>)
    requires ks <= age.Keys && ks != {}
    ensures exists k :: IsLeast(ks, age, k)
    decreases ks
  {
    var k :| k in ks;
    if ks == {k} {
      assert IsLeast(ks, age, k);
    } else {
      var rest := ks - {k};
      LeastExists(rest, age);
      var m :| IsLeast(rest, age, m);
      assert IsLeast(ks, age, if age[k] <= age[m] then k else m);
    }
  }

  lemma SubsetSize<T>(a: set<T>, b: set<T>)
    requires a <= b
    ensures |a| <= |b|
  {
    assert b == a + (b - a);
  }

  predicate Distinct<T(==)>(xs: seq<T>) {
    forall i, j :: 0 <= i < j < |xs| ==> xs[i] != xs[j]
  }

  lemma DistinctOneMore<T>(xs: seq<T>, x: T)
    requires Distinct(xs) && x !in xs
    ensures Distinct(xs + [x])
  {
    assert forall i :: 0 <= i < |xs| ==> xs[i] in xs;
  }

  lemma {:induction false} Listing<T>(s: set<T>) returns (xs: seq<T>)
    ensures Distinct(xs) && forall x :: x in xs <==> x in s
  {
    xs := [];
    if s != {} {
      var x :| x in s;
      xs := Listing(s - {x});
      DistinctOneMore(xs, x);
      xs := xs + [x];
    }
  }

  lemma {:induction false} DistinctOccursOnce<T>(xs: seq<T>, x: T)
    requires Distinct(xs)
    ensures multiset(xs)[x] <= 1
  {
    if xs != [] {
      var rest, last := xs[..|xs| - 1], xs[|xs| - 1];
      assert xs == rest + [last];
      DistinctOccursOnce(rest, x);
      assert last !in rest;
    }
  }

  /** A permutation of a sequence without repetition has none either. */
  lemma PermutedDistinct<T>(xs: seq<T>, ys: seq<T>)
    requires Distinct(xs) && multiset(xs) == multiset(ys)
    ensures Distinct(ys)
  {
    forall i, j | 0 <= i < j < |ys| ensures ys[i] != ys[j] {
      if ys[i] == ys[j] {
        assert ys == ys[..j] + [ys[j]] + ys[j + 1..];
        assert ys[i] == ys[..j][i] && ys[i] in multiset(ys[..j]);
        assert multiset(ys)[ys[j]] >= 2;
        DistinctOccursOnce(xs, ys[j]);
      }
    }
  }

  lemma PermutedMembers<T>(xs: seq<T>, ys: seq<T>, x: T)
    requires multiset(xs) == multiset(ys)
    ensures x in xs <==> x in ys
  {
    assert x in xs <==> x in multiset(xs);
    assert x in ys <==> x in multiset(ys);
  }

  // ---------------------------------------------------------------- sorting

  /** `lt` compares like a strict order on keys: equal keys are allowed. */
  ghost predicate WeakOrder<T(!new)>(lt: (T, T) -> bool) {
    && (forall a, b :: lt(a, b) ==> !lt(b, a))
    && (forall a, b, c :: lt(a, b) && !lt(c, b) ==> lt(a, c))
  }

  ghost predicate SortedBy<T>(xs: seq<T>, lt: (T, T) -> bool) {
    forall i, j :: 0 <= i < j < |xs| ==> !lt(xs[j], xs[i])
  }

  predicate Alike<T>(lt: (T, T) -> bool, x: T, y: T) {
    !lt(x, y) && !lt(y, x)
  }

  /** The elements whose key is that of `v`, in their order. */
  function AllLike<T>(xs: seq<T>, lt: (T, T) -> bool, v: T): seq<T> {
    if xs == [] then []
    else
      var rest, last := AllLike(xs[..|xs| - 1], lt, v), xs[|xs| - 1];
      if Alike(lt, last, v) then rest + [last] else rest
  }

  lemma {:induction false} AllLikeOfConcat<T>(xs: seq<T>, ys: seq<T>, lt: (T, T) -> bool, v: T)
    ensures AllLike(xs + ys, lt, v) == AllLike(xs, lt, v) + AllLike(ys, lt, v)
    decreases |ys|
  {
    if ys == [] {
      assert xs + ys == xs;
    } else {
      var rest := ys[..|ys| - 1];
      AllLikeOfConcat(xs, rest, lt, v);
      assert (xs + ys)[..|xs + ys| - 1] == xs + rest;
    }
  }

  lemma AllLikeOfOne<T>(x: T, lt: (T, T) -> bool, v: T)
    ensures AllLike([x], lt, v) == if lt(x, v) || lt(v, x) then [] else [x]
  {
    assert [x][..0] == [];
  }

  lemma {:induction false} NoneLike<T>(xs: seq<T>, lt: (T, T) -> bool, v: T)
    requires forall i :: 0 <= i < |xs| ==> !Alike(lt, xs[i], v)
    ensures AllLike(xs, lt, v) == []
  {
    if xs != [] { NoneLike(xs[..|xs| - 1], lt, v); }
  }

  /** `x` goes in front of `xs[i..]`, which it strictly precedes. */
  ghost predicate PlaceFor<T>(xs: seq<T>, x: T, lt: (T, T) -> bool, i: nat) {
    && i <= |xs| && (i > 0 ==> !lt(x, xs[i - 1]))
    && forall j :: i <= j < |xs| ==> lt(x, xs[j])
  }

  lemma InsertedSorted<T(!new)>(xs: seq<T>, x: T, lt: (T, T) -> bool, i: nat)
    requires WeakOrder(lt) && SortedBy(xs, lt) && PlaceFor(xs, x, lt, i)
    ensures SortedBy(xs[..i] + [x] + xs[i..], lt)
  {
    var ys := xs[..i] + [x] + xs[i..];
    forall p, q | 0 <= p < q < |ys| ensures !lt(ys[q], ys[p]) {
      var p', q' := if p > i then p - 1 else p, if q > i then q - 1 else q;
      assert p != i ==> ys[p] == xs[p'];
      assert q != i ==> ys[q] == xs[q'];
      if q == i && p < i - 1 { assert !lt(xs[i - 1], xs[p]); }
    }
  }

  lemma InsertedLike<T(!new)>(xs: seq<T>, x: T, lt: (T, T) -> bool, i: nat, v: T)
    requires WeakOrder(lt) && PlaceFor(xs, x, lt, i)
    ensures AllLike(xs[..i] + [x] + xs[i..], lt, v)
         == AllLike(xs, lt, v) + if Alike(lt, x, v) then [x] else []
  {
    AllLikeOfConcat(xs[..i] + [x], xs[i..], lt, v);
    AllLikeOfConcat(xs[..i], [x], lt, v);
    AllLikeOfConcat(xs[..i], xs[i..], lt, v);
    assert xs == xs[..i] + xs[i..];
    assert [x][..0] == [];
    if Alike(lt, x, v) {
      forall j | 0 <= j < |xs[i..]| ensures !Alike(lt, xs[i..][j], v) {
        assert lt(x, xs[i + j]);
      }
      NoneLike(xs[i..], lt, v);
    }
  }

  method Insert<T(!new)>(xs: seq<T>, x: T, lt: (T, T) -> bool) returns (ys: seq<T>)
    requires WeakOrder(lt) && SortedBy(xs, lt)
    ensures SortedBy(ys, lt) && multiset(ys) == multiset(xs) + multiset{x}
    ensures forall v :: AllLike(ys, lt, v) == AllLike(xs, lt, v) + if Alike(lt, x, v) then [x] else []
  {
    var i := |xs|;
    while i > 0 && lt(x, xs[i - 1])
      invariant 0 <= i <= |xs| && forall j :: i <= j < |xs| ==> lt(x, xs[j])
    {
      i := i - 1;
    }
    ys := xs[..i] + [x] + xs[i..];
    InsertedSorted(xs, x, lt, i);
    assert xs == xs[..i] + xs[i..];
    forall v ensures AllLike(ys, lt, v) == AllLike(xs, lt, v) + if Alike(lt, x, v) then [x] else [] {
      InsertedLike(xs, x, lt, i, v);
    }
  }

  /** A stable sort: a permutation in order, equal keys as they came. */
  method Sort<T(!new)>(xs: seq<T>, lt: (T, T) -> bool) returns (ys: seq<T>)
    requires WeakOrder(lt)
    ensures SortedBy(ys, lt) && multiset(ys) == multiset(xs)
    ensures forall v :: AllLike(ys, lt, v) == AllLike(xs, lt, v)
  {
    ys := [];
    for i := 0 to |xs|
      invariant SortedBy(ys, lt) && multiset(ys) == multiset(xs[..i])
      invariant forall v :: AllLike(ys, lt, v) == AllLike(xs[..i], lt, v)
    {
      assert xs[..i + 1] == xs[..i] + [xs[i]];
      assert xs[..i + 1][..i] == xs[..i];
      ys := Insert(ys, xs[i], lt);
    }
    assert xs[..|xs|] == xs;
  }

  /** The listing of a finite set, in some order. */
  method ListOf<T>(s: set<T>) returns (xs: seq<T>)
    ensures Distinct(xs) && forall x :: x in xs <==> x in s
  {
    xs := [];
    var rest := s;
    while rest != {}
      invariant rest <= s && Distinct(xs)
      invariant forall x :: x in xs <==> x in s - rest
      decreases rest
    {
      var x :| x in rest;
      DistinctOneMore(xs, x);
      xs, rest := xs + [x], rest - {x};
    }
  }
}
