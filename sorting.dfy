/**
 * `Array.prototype.sort` with a comparator, as the client pages use it.
 * A comparator follows JavaScript's convention: `cmp(a, b) <= 0` lets `a` stay before `b`.
 * The sort is a stable insertion sort: each element is inserted after every element
 * already placed that is not greater than it.
 */
module Sorting {
  import Lists

  /** `s` is in comparator order: no later element is strictly smaller than an earlier one. */
  predicate Sorted<T>(s: seq<T>, cmp: (T, T) -> int) {
    forall i, j :: 0 <= i < j < |s| ==> cmp(s[i], s[j]) <= 0
  }

  /** The comparator is a total preorder, the condition under which sorting by it is meaningful. */
  ghost predicate TotalPreorder<T(!new)>(cmp: (T, T) -> int) {
    && (forall a, b :: cmp(a, b) <= 0 || cmp(b, a) <= 0)
    && (forall a, b, c :: cmp(a, b) <= 0 && cmp(b, c) <= 0 ==> cmp(a, c) <= 0)
  }

  /** Swapping the arguments negates the comparison, as a difference of keys does. */
  ghost predicate Antisymmetric<T(!new)>(cmp: (T, T) -> int) {
    forall a, b :: cmp(a, b) == -cmp(b, a)
  }

  /** The negation of an antisymmetric total preorder (the descending comparator) is one too. */
  lemma Reversed<T(!new)>(asc: (T, T) -> int, desc: (T, T) -> int)
    requires TotalPreorder(asc) && Antisymmetric(asc)
    requires forall a, b :: desc(a, b) == -asc(a, b)
    ensures TotalPreorder(desc) && Antisymmetric(desc)
  {
    forall a, b, c | desc(a, b) <= 0 && desc(b, c) <= 0 ensures desc(a, c) <= 0 {
      assert asc(c, b) <= 0 && asc(b, a) <= 0;
    }
  }

  /** Every element occurs at most once. */
  ghost predicate AtMostOnce<T(!new)>(s: seq<T>) {
    forall x :: multiset(s)[x] <= 1
  }

  /** Places `x` after the leading elements of `s` that are not greater than it. */
  function Insert<T>(x: T, s: seq<T>, cmp: (T, T) -> int): (r: seq<T>)
    ensures |r| == |s| + 1
  {
    if s == [] || cmp(s[0], x) > 0 then [x] + s
    else [s[0]] + Insert(x, s[1..], cmp)
  }

  /** Sorts `s` by inserting its elements one after another, from the left. */
  function Sort<T>(s: seq<T>, cmp: (T, T) -> int): (r: seq<T>)
    ensures |r| == |s|
  {
    if s == [] then [] else Insert(s[|s| - 1], Sort(s[..|s| - 1], cmp), cmp)
  }

  lemma {:induction false} InsertPermutes<T>(x: T, s: seq<T>, cmp: (T, T) -> int)
    ensures multiset(Insert(x, s, cmp)) == multiset(s) + multiset{x}
  {
    if s == [] || cmp(s[0], x) > 0 {
    } else {
      InsertPermutes(x, s[1..], cmp);
      assert s == [s[0]] + s[1..];
    }
  }

  /** `y` may precede every element of `s`. */
  predicate Precedes<T>(y: T, s: seq<T>, cmp: (T, T) -> int) {
    forall k :: 0 <= k < |s| ==> cmp(y, s[k]) <= 0
  }

  lemma ConsSorted<T>(y: T, s: seq<T>, cmp: (T, T) -> int)
    requires Sorted(s, cmp) && Precedes(y, s, cmp)
    ensures Sorted([y] + s, cmp)
  {
    var r := [y] + s;
    forall i, j | 0 <= i < j < |r| ensures cmp(r[i], r[j]) <= 0 {
      if i > 0 {
        assert r[i] == s[i - 1] && r[j] == s[j - 1];
      }
    }
  }

  lemma {:induction false} InsertKeepsPrecedes<T>(y: T, x: T, s: seq<T>, cmp: (T, T) -> int)
    requires Precedes(y, s, cmp) && cmp(y, x) <= 0
    ensures Precedes(y, Insert(x, s, cmp), cmp)
  {
    if s == [] || cmp(s[0], x) > 0 {
    } else {
      InsertKeepsPrecedes(y, x, s[1..], cmp);
      assert Insert(x, s, cmp) == [s[0]] + Insert(x, s[1..], cmp);
    }
  }

  lemma {:induction false} InsertSorted<T(!new)>(x: T, s: seq<T>, cmp: (T, T) -> int)
    requires TotalPreorder(cmp)
    requires Sorted(s, cmp)
    ensures Sorted(Insert(x, s, cmp), cmp)
  {
    if s == [] {
    } else if cmp(s[0], x) > 0 {
      assert cmp(x, s[0]) <= 0;
      forall k | 0 <= k < |s| ensures cmp(x, s[k]) <= 0 {
        if k > 0 { assert cmp(s[0], s[k]) <= 0; }
      }
      ConsSorted(x, s, cmp);
    } else {
      var tail := s[1..];
      assert Sorted(tail, cmp) by {
        forall i, j | 0 <= i < j < |tail| ensures cmp(tail[i], tail[j]) <= 0 {
          assert tail[i] == s[i + 1] && tail[j] == s[j + 1];
        }
      }
      assert Precedes(s[0], tail, cmp) by {
        forall k | 0 <= k < |tail| ensures cmp(s[0], tail[k]) <= 0 {
          assert tail[k] == s[k + 1];
        }
      }
      InsertSorted(x, tail, cmp);
      InsertKeepsPrecedes(s[0], x, tail, cmp);
      ConsSorted(s[0], Insert(x, tail, cmp), cmp);
    }
  }

  lemma {:induction false} SortPermutes<T>(s: seq<T>, cmp: (T, T) -> int)
    ensures multiset(Sort(s, cmp)) == multiset(s)
  {
    if s != [] {
      SortPermutes(s[..|s| - 1], cmp);
      InsertPermutes(s[|s| - 1], Sort(s[..|s| - 1], cmp), cmp);
      assert s == s[..|s| - 1] + [s[|s| - 1]];
    }
  }

  lemma {:induction false} SortSorted<T(!new)>(s: seq<T>, cmp: (T, T) -> int)
    requires TotalPreorder(cmp)
    ensures Sorted(Sort(s, cmp), cmp)
  {
    if s != [] {
      SortSorted(s[..|s| - 1], cmp);
      InsertSorted(s[|s| - 1], Sort(s[..|s| - 1], cmp), cmp);
    }
  }

  /** The contract callers use: the sort returns an ordered permutation of its input. */
  lemma SortIsOrderedPermutation<T(!new)>(s: seq<T>, cmp: (T, T) -> int)
    requires TotalPreorder(cmp)
    ensures multiset(Sort(s, cmp)) == multiset(s)
    ensures Sorted(Sort(s, cmp), cmp)
  {
    SortPermutes(s, cmp);
    SortSorted(s, cmp);
  }

  /** The elements `p` picks are all equal to one another under `cmp`, as one key's elements are. */
  ghost predicate OneClass<T(!new)>(p: T -> bool, cmp: (T, T) -> int) {
    forall a, b :: p(a) && p(b) ==> cmp(a, b) <= 0
  }

  lemma SortedTail<T>(s: seq<T>, cmp: (T, T) -> int)
    requires Sorted(s, cmp) && s != []
    ensures Sorted(s[1..], cmp) && Precedes(s[0], s[1..], cmp)
  {
    var tail := s[1..];
    forall i, j | 0 <= i < j < |tail| ensures cmp(tail[i], tail[j]) <= 0 {
      assert tail[i] == s[i + 1] && tail[j] == s[j + 1];
    }
    forall k | 0 <= k < |tail| ensures cmp(s[0], tail[k]) <= 0 {
      assert tail[k] == s[k + 1];
    }
  }

  /** Inserting into a sorted list puts `x` after every element of its class already there. */
  lemma {:induction false} InsertStable<T(!new)>(x: T, s: seq<T>, cmp: (T, T) -> int, p: T -> bool)
    requires TotalPreorder(cmp) && OneClass(p, cmp)
    requires Sorted(s, cmp)
    ensures Lists.Filter(Insert(x, s, cmp), p) == Lists.Filter(s, p) + (if p(x) then [x] else [])
  {
    if s == [] || cmp(s[0], x) > 0 {
      assert Insert(x, s, cmp) == [x] + s;
      if p(x) && s != [] {
        NoneOfClassAbove(x, s, cmp, p);
      }
      FrontStable(x, s, p);
    } else {
      var t := s[1..];
      SortedTail(s, cmp);
      InsertStable(x, t, cmp, p);
      assert Insert(x, s, cmp) == [s[0]] + Insert(x, t, cmp);
      assert s == [s[0]] + t;
      FilterConsStep(s[0], t, Insert(x, t, cmp), if p(x) then [x] else [], p);
    }
  }

  /** `x` in front of a list that holds nothing of its class. */
  lemma FrontStable<T>(x: T, s: seq<T>, p: T -> bool)
    requires p(x) ==> forall i :: 0 <= i < |s| ==> !p(s[i])
    ensures Lists.Filter([x] + s, p) == Lists.Filter(s, p) + (if p(x) then [x] else [])
  {
    Lists.FilterCons(x, s, p);
    if p(x) {
      Lists.FilterEmpty(s, p);
      assert Lists.Filter(s, p) == [];
    }
  }

  /** An element put in front of two lists whose filters differ by a suffix keeps that difference. */
  lemma FilterConsStep<T>(y: T, t: seq<T>, u: seq<T>, e: seq<T>, p: T -> bool)
    requires Lists.Filter(u, p) == Lists.Filter(t, p) + e
    ensures Lists.Filter([y] + u, p) == Lists.Filter([y] + t, p) + e
  {
    var h: seq<T> := if p(y) then [y] else [];
    Lists.FilterCons(y, u, p);
    Lists.FilterCons(y, t, p);
    ConcatAssociative(h, Lists.Filter(t, p), e);
  }

  lemma ConcatAssociative<T>(a: seq<T>, b: seq<T>, c: seq<T>)
    ensures (a + b) + c == a + (b + c)
  {
  }

  /** A sorted list whose first element is above `x` holds nothing of `x`'s class. */
  lemma NoneOfClassAbove<T(!new)>(x: T, s: seq<T>, cmp: (T, T) -> int, p: T -> bool)
    requires TotalPreorder(cmp) && OneClass(p, cmp)
    requires Sorted(s, cmp) && s != [] && cmp(s[0], x) > 0 && p(x)
    ensures forall i :: 0 <= i < |s| ==> !p(s[i])
  {
  }

  /**
   * The sort is stable: the elements of any one class under `cmp` come out in the order they
   * went in, so any two stable sorts by the same total preorder give the same list.
   */
  lemma {:induction false} SortStable<T(!new)>(s: seq<T>, cmp: (T, T) -> int, p: T -> bool)
    requires TotalPreorder(cmp) && OneClass(p, cmp)
    ensures Lists.Filter(Sort(s, cmp), p) == Lists.Filter(s, p)
  {
    if s != [] {
      var init, last := s[..|s| - 1], s[|s| - 1];
      var e: seq<T> := if p(last) then [last] else [];
      assert Sort(s, cmp) == Insert(last, Sort(init, cmp), cmp);
      SortStable(init, cmp, p);
      SortSorted(init, cmp);
      InsertStable(last, Sort(init, cmp), cmp, p);
      assert Lists.Filter(Sort(s, cmp), p) == Lists.Filter(init, p) + e;
      assert s == init + [last];
      Lists.FilterAppend(init, last, p);
      assert Lists.Filter(s, p) == Lists.Filter(init, p) + e;
    }
  }

  /** Inserting a new element into a list without repeats gives a list without repeats. */
  lemma InsertAtMostOnce<T(!new)>(x: T, s: seq<T>, cmp: (T, T) -> int)
    requires AtMostOnce(s) && x !in s
    ensures AtMostOnce(Insert(x, s, cmp))
  {
    InsertPermutes(x, s, cmp);
    forall y ensures multiset(Insert(x, s, cmp))[y] <= 1 {
      assert multiset(s)[x] == 0;
    }
  }

  /** What a sorted list's first `k` elements leave behind is not smaller than any of them. */
  lemma SortedPrefixComesFirst<T>(s: seq<T>, k: nat, cmp: (T, T) -> int)
    requires Sorted(s, cmp) && k <= |s|
    ensures forall i, x :: 0 <= i < k && x in multiset(s) - multiset(s[..k]) ==> cmp(s[i], x) <= 0
  {
    assert s == s[..k] + s[k..];
    assert multiset(s) == multiset(s[..k]) + multiset(s[k..]);
    forall i, x | 0 <= i < k && x in multiset(s) - multiset(s[..k]) ensures cmp(s[i], x) <= 0 {
      assert x in s[k..];
      var j :| 0 <= j < |s[k..]| && s[k..][j] == x;
      assert s[k + j] == x;
    }
  }

  /** The first `k` elements of a sorted list are sorted and drawn from it. */
  lemma SortedPrefix<T>(s: seq<T>, k: nat, cmp: (T, T) -> int)
    requires Sorted(s, cmp) && k <= |s|
    ensures Sorted(s[..k], cmp)
    ensures multiset(s[..k]) <= multiset(s)
  {
    assert s == s[..k] + s[k..];
  }
}
