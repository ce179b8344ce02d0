/**
 * `Array.prototype.sort` with a comparator, which ECMAScript requires to be
 * stable: the model is a stable insertion sort, and the lemmas show that with
 * a consistent comparator the result is a sorted permutation that keeps the
 * input order of elements the comparator calls equal.
 */
module Sorting {
  import opened Seqs

  /** What ECMAScript asks of a comparator: antisymmetric, and transitive on "not after". */
  ghost predicate Consistent<T(!new)>(cmp: (T, T) -> int) {
    (forall a, b :: cmp(a, b) < 0 <==> cmp(b, a) > 0)
    && (forall a, b, c :: cmp(a, b) <= 0 && cmp(b, c) <= 0 ==> cmp(a, c) <= 0)
  }

  ghost predicate Sorted<T>(s: seq<T>, cmp: (T, T) -> int) {
    forall i, j :: 0 <= i < j < |s| ==> cmp(s[i], s[j]) <= 0
  }

  /** Places x after every element of s that does not sort strictly after it. */
  function Insert<T>(x: T, s: seq<T>, cmp: (T, T) -> int): (r: seq<T>)
    ensures |r| == |s| + 1
  {
    if s == [] then [x]
    else if cmp(x, s[0]) < 0 then [x] + s
    else [s[0]] + Insert(x, s[1..], cmp)
  }

  /** `s.sort(cmp)`. */
  function SortBy<T>(s: seq<T>, cmp: (T, T) -> int): (r: seq<T>)
    ensures |r| == |s|
  {
    if s == [] then [] else Insert(s[|s| - 1], SortBy(s[..|s| - 1], cmp), cmp)
  }

  // ---------------------------------------------------------------------

  lemma {:induction false} InsertMultiset<T>(x: T, s: seq<T>, cmp: (T, T) -> int)
    ensures multiset(Insert(x, s, cmp)) == multiset(s) + multiset{x}
    decreases |s|
  {
    if s != [] && cmp(x, s[0]) >= 0 {
      InsertMultiset(x, s[1..], cmp);
      assert s == [s[0]] + s[1..];
    }
  }

  /** With an antisymmetric, transitive comparator, "strictly before" passes along "not after". */
  lemma StrictBefore<T(!new)>(cmp: (T, T) -> int, a: T, b: T, c: T)
    requires Consistent(cmp)
    requires cmp(a, b) < 0 && cmp(b, c) <= 0
    ensures cmp(a, c) < 0
  {
  }

  lemma {:induction false} InsertSorted<T(!new)>(x: T, s: seq<T>, cmp: (T, T) -> int)
    requires Consistent(cmp) && Sorted(s, cmp)
    ensures Sorted(Insert(x, s, cmp), cmp)
    decreases |s|
  {
    if s != [] && cmp(x, s[0]) < 0 {
      var r := [x] + s;
      forall i, j | 0 <= i < j < |r|
        ensures cmp(r[i], r[j]) <= 0
      {
        if i == 0 && j > 1 {
          StrictBefore(cmp, x, s[0], s[j - 1]);
        }
      }
    } else if s != [] {
      var t := s[1..];
      InsertSorted(x, t, cmp);
      InsertMultiset(x, t, cmp);
      var r := Insert(x, t, cmp);
      assert Insert(x, s, cmp) == [s[0]] + r;
      forall j | 0 <= j < |r|
        ensures cmp(s[0], r[j]) <= 0
      {
        assert r[j] in multiset(r);
        assert r[j] in multiset(t) || r[j] == x;
        if r[j] == x {
          assert cmp(s[0], x) <= 0;
        } else {
          var k :| 0 <= k < |t| && t[k] == r[j];
          assert s[k + 1] == r[j];
        }
      }
    }
  }

  lemma {:induction false} SortByPermutation<T>(s: seq<T>, cmp: (T, T) -> int)
    ensures multiset(SortBy(s, cmp)) == multiset(s)
    decreases |s|
  {
    if s != [] {
      var n := |s| - 1;
      SortByPermutation(s[..n], cmp);
      InsertMultiset(s[n], SortBy(s[..n], cmp), cmp);
      assert s == s[..n] + [s[n]];
    }
  }

  /** Sorting keeps exactly the elements it was given. */
  lemma SortByMembers<T>(s: seq<T>, cmp: (T, T) -> int)
    ensures forall x :: x in SortBy(s, cmp) <==> x in s
  {
    SortByPermutation(s, cmp);
    forall x
      ensures x in SortBy(s, cmp) <==> x in s
    {
      assert x in SortBy(s, cmp) <==> x in multiset(SortBy(s, cmp));
      assert x in s <==> x in multiset(s);
    }
  }

  lemma {:induction false} SortBySorted<T(!new)>(s: seq<T>, cmp: (T, T) -> int)
    requires Consistent(cmp)
    ensures Sorted(SortBy(s, cmp), cmp)
    decreases |s|
  {
    if s != [] {
      var n := |s| - 1;
      SortBySorted(s[..n], cmp);
      InsertSorted(s[n], SortBy(s[..n], cmp), cmp);
    }
  }

  /** The elements equal to x under cmp, in order. */
  function Ties<T>(s: seq<T>, x: T, cmp: (T, T) -> int): seq<T> {
    Filter(s, TiesWith(x, cmp))
  }

  function TiesWith<T>(x: T, cmp: (T, T) -> int): T -> bool {
    e => cmp(e, x) == 0
  }

  /** An element that ties with x cannot sort strictly after another element that ties with x. */
  lemma TieBlocks<T(!new)>(cmp: (T, T) -> int, y: T, x: T, e: T)
    requires Consistent(cmp)
    ensures cmp(y, e) < 0 && cmp(y, x) == 0 ==> cmp(e, x) != 0
  {
  }

  lemma SortedTail<T>(s: seq<T>, cmp: (T, T) -> int)
    requires s != [] && Sorted(s, cmp)
    ensures Sorted(s[1..], cmp)
  {
    forall i, j | 0 <= i < j < |s[1..]|
      ensures cmp(s[1..][i], s[1..][j]) <= 0
    {
      assert s[1..][i] == s[i + 1] && s[1..][j] == s[j + 1];
    }
  }

  /** With no tie in s, the ties of [y] + s are those of [y]. */
  lemma TiesFront<T(!new)>(y: T, s: seq<T>, x: T, cmp: (T, T) -> int)
    requires Consistent(cmp) && Sorted(s, cmp) && s != [] && cmp(y, s[0]) < 0
    ensures Ties([y] + s, x, cmp) == Ties(s, x, cmp) + Ties([y], x, cmp)
  {
    var p := TiesWith(x, cmp);
    FilterAppend([y], s, p);
    if p(y) {
      forall i | 0 <= i < |s|
        ensures !p(s[i])
      {
        StrictBefore(cmp, y, s[0], s[i]);
        TieBlocks(cmp, y, x, s[i]);
      }
      FilterNone(s, p);
    } else {
      assert Filter([y], p) == [];
    }
  }

  lemma {:induction false} InsertTies<T(!new)>(y: T, s: seq<T>, x: T, cmp: (T, T) -> int)
    requires Consistent(cmp) && Sorted(s, cmp)
    ensures Ties(Insert(y, s, cmp), x, cmp) == Ties(s, x, cmp) + Ties([y], x, cmp)
    decreases |s|
  {
    var p := TiesWith(x, cmp);
    if s != [] && cmp(y, s[0]) < 0 {
      TiesFront(y, s, x, cmp);
    } else if s != [] {
      var t := s[1..];
      SortedTail(s, cmp);
      InsertTies(y, t, x, cmp);
      assert s == [s[0]] + t;
      assert Insert(y, s, cmp) == [s[0]] + Insert(y, t, cmp);
      FilterAppend([s[0]], t, p);
      FilterAppend([s[0]], Insert(y, t, cmp), p);
    }
  }

  /** Stability: the elements the comparator ties with any x keep their input order. */
  lemma {:induction false} SortByStable<T(!new)>(s: seq<T>, x: T, cmp: (T, T) -> int)
    requires Consistent(cmp)
    ensures Ties(SortBy(s, cmp), x, cmp) == Ties(s, x, cmp)
    decreases |s|
  {
    if s != [] {
      var n := |s| - 1;
      var r := SortBy(s[..n], cmp);
      SortByStable(s[..n], x, cmp);
      SortBySorted(s[..n], cmp);
      InsertTies(s[n], r, x, cmp);
      assert s == s[..n] + [s[n]];
      FilterAppend(s[..n], [s[n]], TiesWith(x, cmp));
    }
  }
}
