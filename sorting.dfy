/** `Array.prototype.sort` with a consistent comparator. The sort is stable
    (ECMAScript 2019, section 22.1.3.27), so its result is determined: the
    elements in comparator order, equivalent elements in their original
    order. The model is the insertion sort that produces exactly that
    sequence; `le(a, b)` stands for `compare(a, b) <= 0`. */
module Sorting {
  import opened Folds

  /** A comparator that orders every pair consistently. */
  ghost predicate TotalPreorder<T(!new)>(le: (T, T) -> bool)
  {
    (forall x, y :: le(x, y) || le(y, x))
    && (forall x, y, z :: le(x, y) && le(y, z) ==> le(x, z))
  }

  /** Each element is in order with the next. */
  predicate Sorted<T>(xs: seq<T>, le: (T, T) -> bool)
  {
    forall i :: 0 < i < |xs| ==> le(xs[i - 1], xs[i])
  }

  /** Under a total preorder, a sorted sequence has every pair in order. */
  lemma {:induction false} SortedPairs<T(!new)>(xs: seq<T>, le: (T, T) -> bool)
    requires TotalPreorder(le) && Sorted(xs, le)
    ensures forall i, j :: 0 <= i < j < |xs| ==> le(xs[i], xs[j])
  {
    if xs != [] {
      var rest := xs[..|xs| - 1];
      assert Sorted(rest, le);
      SortedPairs(rest, le);
      forall i, j | 0 <= i < j < |xs|
        ensures le(xs[i], xs[j])
      {
        if j == |xs| - 1 && i < j - 1 {
          assert le(rest[i], rest[j - 1]);
        } else if j < |xs| - 1 {
          assert le(rest[i], rest[j]);
        }
      }
    }
  }

  /** Where x goes in xs: after the last element that is not above it. */
  function InsertionPoint<T>(x: T, xs: seq<T>, le: (T, T) -> bool): (k: nat)
    ensures k <= |xs|
    ensures forall i :: k <= i < |xs| ==> !le(xs[i], x)
    ensures k > 0 ==> le(xs[k - 1], x)
  {
    if xs == [] then 0
    else if le(xs[|xs| - 1], x) then |xs|
    else InsertionPoint(x, xs[..|xs| - 1], le)
  }

  function Insert<T>(x: T, xs: seq<T>, le: (T, T) -> bool): seq<T>
  {
    var k := InsertionPoint(x, xs, le);
    xs[..k] + [x] + xs[k..]
  }

  /** The stably sorted sequence. */
  function SortBy<T>(xs: seq<T>, le: (T, T) -> bool): seq<T>
  {
    if xs == [] then [] else Insert(xs[|xs| - 1], SortBy(xs[..|xs| - 1], le), le)
  }

  /** The elements equivalent to x under le. */
  function EquivalentTo<T>(le: (T, T) -> bool, x: T): T -> bool
  {
    y => le(x, y) && le(y, x)
  }

  /** ys keeps every class of equivalent elements in the order xs has it. */
  ghost predicate Stable<T(!new)>(xs: seq<T>, ys: seq<T>, le: (T, T) -> bool)
  {
    forall x :: Where(ys, EquivalentTo(le, x)) == Where(xs, EquivalentTo(le, x))
  }

  lemma InsertSorted<T(!new)>(x: T, xs: seq<T>, le: (T, T) -> bool)
    requires TotalPreorder(le) && Sorted(xs, le)
    ensures Sorted(Insert(x, xs, le), le)
    ensures multiset(Insert(x, xs, le)) == multiset(xs) + multiset{x}
  {
    var k := InsertionPoint(x, xs, le);
    var ys := Insert(x, xs, le);
    assert xs == xs[..k] + xs[k..];
    forall i | 0 < i < |ys|
      ensures le(ys[i - 1], ys[i])
    {
      if i < k {
        assert ys[i - 1] == xs[i - 1] && ys[i] == xs[i];
      } else if i == k {
        assert ys[i - 1] == xs[k - 1] && ys[i] == x;
      } else if i == k + 1 {
        assert ys[i - 1] == x && ys[i] == xs[k];
        assert !le(xs[k], x);
      } else {
        assert ys[i - 1] == xs[i - 2] && ys[i] == xs[i - 1];
      }
    }
  }

  /** Elements strictly above z are not equivalent to anything z is
      equivalent to. */
  lemma AboveNotEquivalent<T(!new)>(z: T, back: seq<T>, le: (T, T) -> bool, x: T)
    requires TotalPreorder(le) && EquivalentTo(le, x)(z)
    requires forall i :: 0 <= i < |back| ==> !le(back[i], z)
    ensures Where(back, EquivalentTo(le, x)) == []
  {
    assert forall i :: 0 <= i < |back| ==> !EquivalentTo(le, x)(back[i]);
    WhereNone(back, EquivalentTo(le, x));
  }

  /** Inserting z keeps each class of equivalent elements in order, z last. */
  lemma InsertStable<T(!new)>(z: T, xs: seq<T>, le: (T, T) -> bool, x: T)
    requires TotalPreorder(le)
    ensures Where(Insert(z, xs, le), EquivalentTo(le, x)) == Where(xs + [z], EquivalentTo(le, x))
  {
    var k := InsertionPoint(z, xs, le);
    var front, back := xs[..k], xs[k..];
    assert xs == front + back;
    if EquivalentTo(le, x)(z) {
      AboveNotEquivalent(z, back, le, x);
    }
    WhereSplice(front, z, back, EquivalentTo(le, x));
  }

  /** SortBy sorts, keeps every element, and is stable. */
  lemma {:induction false} SortBySpec<T(!new)>(xs: seq<T>, le: (T, T) -> bool)
    requires TotalPreorder(le)
    ensures Sorted(SortBy(xs, le), le)
    ensures multiset(SortBy(xs, le)) == multiset(xs)
    ensures Stable(xs, SortBy(xs, le), le)
  {
    if xs != [] {
      var rest, z := xs[..|xs| - 1], xs[|xs| - 1];
      SortBySpec(rest, le);
      var s := SortBy(rest, le);
      InsertSorted(z, s, le);
      assert xs == rest + [z];
      forall x
        ensures Where(SortBy(xs, le), EquivalentTo(le, x)) == Where(xs, EquivalentTo(le, x))
      {
        var p := EquivalentTo(le, x);
        InsertStable(z, s, le, x);
        WhereAppend(s, [z], p);
        WhereAppend(rest, [z], p);
      }
    }
  }

  /** The sorted sequence has the length of the input. */
  lemma SortByLength<T(!new)>(xs: seq<T>, le: (T, T) -> bool)
    requires TotalPreorder(le)
    ensures |SortBy(xs, le)| == |xs|
  {
    SortBySpec(xs, le);
    assert |multiset(SortBy(xs, le))| == |multiset(xs)|;
  }

  /** Sorting what is already sorted changes nothing. */
  lemma {:induction false} SortBySorted<T(!new)>(xs: seq<T>, le: (T, T) -> bool)
    requires Sorted(xs, le)
    ensures SortBy(xs, le) == xs
  {
    if xs != [] {
      var rest := xs[..|xs| - 1];
      SortBySorted(rest, le);
      if rest != [] {
        assert le(rest[|rest| - 1], xs[|xs| - 1]);
      }
      assert rest[..|rest|] == rest;
      assert xs == rest + [xs[|xs| - 1]];
    }
  }

  /** x occurs somewhere before y in xs. */
  predicate Precedes<T(==)>(xs: seq<T>, x: T, y: T)
  {
    exists a, b :: 0 <= a < b < |xs| && xs[a] == x && xs[b] == y
  }

  /** Filtering keeps the relative order of the elements it keeps. */
  lemma {:induction false} WherePreservesOrder<T>(xs: seq<T>, p: T -> bool, i: int, j: int)
    requires 0 <= i < j < |xs| && p(xs[i]) && p(xs[j])
    ensures Precedes(Where(xs, p), xs[i], xs[j])
  {
    var rest := xs[..|xs| - 1];
    var w := Where(rest, p);
    assert Where(xs, p) == w + [xs[|xs| - 1]] || Where(xs, p) == w;
    if j < |xs| - 1 {
      WherePreservesOrder(rest, p, i, j);
      var a, b :| 0 <= a < b < |w| && w[a] == xs[i] && w[b] == xs[j];
      assert Where(xs, p)[a] == xs[i] && Where(xs, p)[b] == xs[j];
    } else {
      WhereMembers(rest, p);
      assert rest[i] in w;
      var a :| 0 <= a < |w| && w[a] == xs[i];
      assert Where(xs, p) == w + [xs[j]];
      assert Where(xs, p)[a] == xs[i] && Where(xs, p)[|w|] == xs[j];
    }
  }

  /** Order among the filtered elements is order in the original. */
  lemma {:induction false} WhereReflectsOrder<T>(xs: seq<T>, p: T -> bool, x: T, y: T)
    requires Precedes(Where(xs, p), x, y)
    ensures Precedes(xs, x, y)
  {
    var rest := xs[..|xs| - 1];
    var w := Where(rest, p);
    var full := Where(xs, p);
    var a, b :| 0 <= a < b < |full| && full[a] == x && full[b] == y;
    if b < |w| {
      assert full[..|w|] == w;
      assert w[a] == x && w[b] == y;
      WhereReflectsOrder(rest, p, x, y);
      var a', b' :| 0 <= a' < b' < |rest| && rest[a'] == x && rest[b'] == y;
      assert xs[a'] == x && xs[b'] == y;
    } else {
      assert full == w + [xs[|xs| - 1]];
      assert y == xs[|xs| - 1];
      assert w[a] == x;
      WhereMembers(rest, p);
      assert x in rest;
      var a' :| 0 <= a' < |rest| && rest[a'] == x;
      assert xs[a'] == x;
    }
  }

  /** Stability, element by element: two equivalent elements of the sorted
      sequence appear in the input in the same order. */
  lemma SortedTiesKeepOrder<T(!new)>(xs: seq<T>, le: (T, T) -> bool, i: int, j: int)
    requires TotalPreorder(le)
    requires 0 <= i < j < |SortBy(xs, le)|
    requires le(SortBy(xs, le)[i], SortBy(xs, le)[j]) && le(SortBy(xs, le)[j], SortBy(xs, le)[i])
    ensures Precedes(xs, SortBy(xs, le)[i], SortBy(xs, le)[j])
  {
    var s := SortBy(xs, le);
    var p := EquivalentTo(le, s[i]);
    assert le(s[i], s[i]);
    SortBySpec(xs, le);
    WherePreservesOrder(s, p, i, j);
    WhereReflectsOrder(xs, p, s[i], s[j]);
  }
}
