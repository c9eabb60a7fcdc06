/** Sequence operations taken from the standard library, and the facts the proofs use. */
module Sequences {

  ghost predicate NoDuplicates<T>(s: seq<T>) {
    forall i, j :: 0 <= i < j < |s| ==> s[i] != s[j]
  }

  function Elements<T>(s: seq<T>): set<T> {
    set x | x in s
  }

  /** `retain(|y| y != x)`. */
  function Without<T(==)>(s: seq<T>, x: T): seq<T> {
    if s == [] then []
    else
      var rest := Without(s[..|s| - 1], x);
      if s[|s| - 1] == x then rest else rest + [s[|s| - 1]]
  }

  lemma {:induction false} WithoutMembers<T>(s: seq<T>, x: T)
    ensures forall y :: y in Without(s, x) <==> y in s && y != x
    ensures |Without(s, x)| <= |s|
  {
    if s != [] {
      WithoutMembers(s[..|s| - 1], x);
      assert s == s[..|s| - 1] + [s[|s| - 1]];
    }
  }

  lemma {:induction false} WithoutNoDuplicates<T>(s: seq<T>, x: T)
    requires NoDuplicates(s)
    ensures NoDuplicates(Without(s, x))
  {
    if s != [] {
      WithoutNoDuplicates(s[..|s| - 1], x);
      WithoutMembers(s[..|s| - 1], x);
      assert s[|s| - 1] !in s[..|s| - 1];
      assert s[|s| - 1] !in Without(s[..|s| - 1], x);
    }
  }

  lemma {:induction false} WithoutAbsent<T>(s: seq<T>, x: T)
    requires x !in s
    ensures Without(s, x) == s
  {
    if s != [] {
      WithoutAbsent(s[..|s| - 1], x);
    }
  }

  /** `position(|y| y == x)` for an element that is there. */
  function IndexOf<T(==)>(s: seq<T>, x: T): (i: nat)
    requires x in s
    ensures i < |s| && s[i] == x && x !in s[..i]
  {
    if s[0] == x then 0 else 1 + IndexOf(s[1..], x)
  }

  lemma {:induction false} IndexOfAfter<T>(front: seq<T>, x: T, back: seq<T>)
    requires x !in front
    ensures IndexOf(front + [x] + back, x) == |front|
  {
    var s := front + [x] + back;
    if front != [] {
      assert front[0] in front;
      assert s[1..] == front[1..] + [x] + back;
      IndexOfAfter(front[1..], x, back);
    }
  }

  /** `swap_remove(i)`: the last element takes the place of element `i`. */
  function SwapRemove<T>(s: seq<T>, i: nat): seq<T>
    requires i < |s|
  {
    s[i := s[|s| - 1]][..|s| - 1]
  }

  /** Drop the first occurrence of `x`, if any, by `swap_remove`. */
  function Dequeue<T(==)>(s: seq<T>, x: T): seq<T> {
    if x in s then SwapRemove(s, IndexOf(s, x)) else s
  }

  lemma DequeueNoDuplicates<T>(s: seq<T>, x: T)
    requires NoDuplicates(s)
    ensures NoDuplicates(Dequeue(s, x))
    ensures forall y :: y in Dequeue(s, x) <==> y in s && y != x
  {
    if x in s {
      var i, d := IndexOf(s, x), Dequeue(s, x);
      forall y | y in s && y != x
        ensures y in d
      {
        var j :| 0 <= j < |s| && s[j] == y;
        if j == |s| - 1 {
          assert d[i] == y;
        } else {
          assert d[j] == y;
        }
      }
      forall y | y in d
        ensures y in s && y != x
      {
        var j :| 0 <= j < |d| && d[j] == y;
      }
    }
  }

  // ----- Stable sorting -----

  /** `le` compares any two elements and is transitive. */
  ghost predicate TotalPreorder<T(!new)>(le: (T, T) -> bool) {
    && (forall x, y :: le(x, y) || le(y, x))
    && (forall x, y, z :: le(x, y) && le(y, z) ==> le(x, z))
  }

  ghost predicate SortedBy<T>(s: seq<T>, le: (T, T) -> bool) {
    forall i, j :: 0 <= i < j < |s| ==> le(s[i], s[j])
  }

  /** Insert `x` behind every element of a sorted sequence that it does not precede. */
  function InsertLast<T>(s: seq<T>, x: T, le: (T, T) -> bool): seq<T> {
    if s == [] then [x]
    else if le(s[|s| - 1], x) then s + [x]
    else InsertLast(s[..|s| - 1], x, le) + [s[|s| - 1]]
  }

  /** Stable sort, as `slice::sort_by` does. */
  function StableSort<T>(s: seq<T>, le: (T, T) -> bool): seq<T> {
    if s == [] then [] else InsertLast(StableSort(s[..|s| - 1], le), s[|s| - 1], le)
  }

  lemma {:induction false} InsertLastIsPermutation<T>(s: seq<T>, x: T, le: (T, T) -> bool)
    ensures multiset(InsertLast(s, x, le)) == multiset(s) + multiset{x}
  {
    if s != [] {
      assert s == s[..|s| - 1] + [s[|s| - 1]];
      if !le(s[|s| - 1], x) {
        InsertLastIsPermutation(s[..|s| - 1], x, le);
      }
    }
  }

  lemma {:induction false} InsertLastIsSorted<T(!new)>(s: seq<T>, x: T, le: (T, T) -> bool)
    requires TotalPreorder(le) && SortedBy(s, le)
    ensures SortedBy(InsertLast(s, x, le), le)
  {
    if s != [] {
      var last, front := s[|s| - 1], s[..|s| - 1];
      if le(last, x) {
        forall i | 0 <= i < |s| - 1
          ensures le(s[i], x)
        {
          assert le(s[i], last);
        }
      } else {
        InsertLastIsSorted(front, x, le);
        InsertLastIsPermutation(front, x, le);
        var t := InsertLast(front, x, le);
        forall i | 0 <= i < |t|
          ensures le(t[i], last)
        {
          assert t[i] in multiset(t);
          assert t[i] in front || t[i] == x;
        }
      }
    }
  }

  lemma {:induction false} StableSortPermutes<T>(s: seq<T>, le: (T, T) -> bool)
    ensures multiset(StableSort(s, le)) == multiset(s)
  {
    if s != [] {
      var front, last := s[..|s| - 1], s[|s| - 1];
      StableSortPermutes(front, le);
      InsertLastIsPermutation(StableSort(front, le), last, le);
      assert multiset(s) == multiset(front) + multiset{last} by {
        assert s == front + [last];
      }
    }
  }

  /** A stable sort returns a sorted permutation. */
  lemma {:induction false} StableSortSorts<T(!new)>(s: seq<T>, le: (T, T) -> bool)
    requires TotalPreorder(le)
    ensures SortedBy(StableSort(s, le), le)
    ensures multiset(StableSort(s, le)) == multiset(s)
  {
    hide SortedBy, TotalPreorder;
    StableSortPermutes(s, le);
    if s == [] {
      NothingToSort(le);
    } else {
      StableSortSorts(s[..|s| - 1], le);
      InsertLastIsSorted(StableSort(s[..|s| - 1], le), s[|s| - 1], le);
    }
  }

  lemma NothingToSort<T>(le: (T, T) -> bool)
    ensures SortedBy([], le)
  {
  }

  lemma {:induction false} InsertLastSame<T>(s: seq<T>, x: T, le: (T, T) -> bool, le': (T, T) -> bool)
    requires forall y :: y in s ==> le(y, x) == le'(y, x)
    ensures InsertLast(s, x, le) == InsertLast(s, x, le')
  {
    if s != [] {
      assert s[|s| - 1] in s;
      InsertLastSame(s[..|s| - 1], x, le, le');
    }
  }

  /** A sort depends only on how the order compares the elements sorted. */
  lemma {:induction false} StableSortSame<T>(s: seq<T>, le: (T, T) -> bool, le': (T, T) -> bool)
    requires forall x, y :: x in s && y in s ==> le(x, y) == le'(x, y)
    ensures StableSort(s, le) == StableSort(s, le')
  {
    if s != [] {
      var front, last := s[..|s| - 1], s[|s| - 1];
      assert last in s;
      StableSortSame(front, le, le');
      StableSortPermutes(front, le);
      forall y | y in StableSort(front, le)
        ensures le(y, last) == le'(y, last)
      {
        PermutationMember(StableSort(front, le), front, y);
      }
      InsertLastSame(StableSort(front, le), last, le, le');
    }
  }

  lemma {:induction false} NoDuplicatesCounts<T>(s: seq<T>)
    ensures NoDuplicates(s) <==> forall x :: multiset(s)[x] <= 1
  {
    if s != [] {
      var front, last := s[..|s| - 1], s[|s| - 1];
      NoDuplicatesCounts(front);
      assert s == front + [last];
      if NoDuplicates(s) {
        assert last !in front;
        assert last !in multiset(front);
      } else if NoDuplicates(front) {
        var i, j :| 0 <= i < j < |s| && s[i] == s[j];
        assert j == |s| - 1;
        assert front[i] in front;
        assert last in multiset(front);
        assert multiset(s)[last] >= 2;
      } else {
        var x :| multiset(front)[x] > 1;
        assert multiset(s)[x] > 1;
      }
    }
  }

  lemma PermutationFacts<T>(s: seq<T>, t: seq<T>)
    requires multiset(s) == multiset(t)
    ensures |s| == |t|
    ensures forall x :: x in s <==> x in t
    ensures NoDuplicates(s) <==> NoDuplicates(t)
  {
    assert |multiset(s)| == |s| && |multiset(t)| == |t|;
    forall x
      ensures x in s <==> x in t
    {
      assert x in s <==> x in multiset(s);
      assert x in t <==> x in multiset(t);
    }
    NoDuplicatesCounts(s);
    NoDuplicatesCounts(t);
  }

  lemma PermutationMember<T>(s: seq<T>, t: seq<T>, x: T)
    requires multiset(s) == multiset(t)
    ensures |s| == |t|
    ensures x in s <==> x in t
  {
    assert |multiset(s)| == |s| && |multiset(t)| == |t|;
    assert x in s <==> x in multiset(s);
    assert x in t <==> x in multiset(t);
  }

  /** Dropping equal last elements leaves permutations. */
  lemma PermutationFronts<T>(s: seq<T>, t: seq<T>)
    requires s != [] && t != [] && multiset(s) == multiset(t) && s[|s| - 1] == t[|t| - 1]
    ensures multiset(s[..|s| - 1]) == multiset(t[..|t| - 1])
  {
    assert s == s[..|s| - 1] + [s[|s| - 1]];
    assert t == t[..|t| - 1] + [t[|t| - 1]];
    assert multiset(s[..|s| - 1]) == multiset(s) - multiset{s[|s| - 1]};
    assert multiset(t[..|t| - 1]) == multiset(t) - multiset{t[|t| - 1]};
  }

  lemma NoDuplicatesConcat<T>(s: seq<T>, t: seq<T>)
    requires NoDuplicates(s) && NoDuplicates(t) && forall x :: x in s ==> x !in t
    ensures NoDuplicates(s + t)
  {
    forall i, j | 0 <= i < j < |s + t|
      ensures (s + t)[i] != (s + t)[j]
    {
      if i < |s| <= j {
        assert s[i] in s && t[j - |s|] in t;
      }
    }
  }

  lemma NoDuplicatesSplit<T>(s: seq<T>, t: seq<T>)
    requires NoDuplicates(s + t)
    ensures NoDuplicates(s) && NoDuplicates(t) && forall x :: x in s ==> x !in t
  {
    forall i, j | 0 <= i < |s| && 0 <= j < |t|
      ensures s[i] != t[j]
    {
      assert (s + t)[i] == s[i] && (s + t)[|s| + j] == t[j];
    }
    assert forall i :: 0 <= i < |s| ==> (s + t)[i] == s[i];
    assert forall i :: 0 <= i < |t| ==> t[i] == (s + t)[|s| + i];
  }

  /** A duplicate-free sequence is as long as its set of elements. */
  lemma {:induction false} NoDuplicatesCardinality<T>(s: seq<T>)
    requires NoDuplicates(s)
    ensures |Elements(s)| == |s|
  {
    if s != [] {
      var front, last := s[..|s| - 1], s[|s| - 1];
      NoDuplicatesCardinality(front);
      assert s == front + [last];
      assert Elements(s) == Elements(front) + {last};
      assert last !in Elements(front);
    }
  }
}
