/**
 * A stable merge sort over a "may come before" relation `le`, the shape shared by the
 * linked-list merge sort (ties go to the left run) and by Java's stable `sorted(comparator)`,
 * where `le(x, y)` means `comparator.compare(x, y) <= 0`.
 *
 * The relation only has to be a total preorder on a universe `u` holding every element.
 */
module Sorting {
  import opened Seqs

  ghost predicate Within<T>(s: seq<T>, u: set<T>) {
    forall i :: 0 <= i < |s| ==> s[i] in u
  }

  ghost predicate TotalPreorderOn<T>(u: set<T>, le: (T, T) -> bool) {
    (forall x, y :: x in u && y in u ==> le(x, y) || le(y, x)) &&
    (forall x, y, z :: x in u && y in u && z in u && le(x, y) && le(y, z) ==> le(x, z))
  }

  /** Every element may come before every later one. */
  ghost predicate SortedBy<T>(s: seq<T>, le: (T, T) -> bool) {
    forall i, j :: 0 <= i < j < |s| ==> le(s[i], s[j])
  }

  /** The elements that `le` cannot tell apart from `c`. */
  function EquivTo<T>(le: (T, T) -> bool, c: T): T -> bool {
    x => le(x, c) && le(c, x)
  }

  /**
   * `r` is a stable sort of `s`: a permutation, ordered by `le`, and keeping the
   * relative order of the elements of every class of equivalent elements.
   */
  ghost predicate IsStableSort<T>(r: seq<T>, s: seq<T>, le: (T, T) -> bool, u: set<T>) {
    multiset(r) == multiset(s) &&
    SortedBy(r, le) &&
    SameClasses(r, s, le, u)
  }

  /** Merging two runs; on a tie the element of the first run is taken first. */
  function Merge<T>(a: seq<T>, b: seq<T>, le: (T, T) -> bool): (r: seq<T>)
    ensures |r| == |a| + |b|
    decreases |a| + |b|
  {
    if a == [] then b
    else if b == [] then a
    else if le(a[0], b[0]) then [a[0]] + Merge(a[1..], b, le)
    else [b[0]] + Merge(a, b[1..], le)
  }

  /** The length of the left run: it ends at the middle element, index (n-1)/2. */
  function LeftLength(n: nat): (m: nat)
    requires n >= 2
    ensures 1 <= m < n
  {
    (n - 1) / 2 + 1
  }

  function MergeSort<T>(s: seq<T>, le: (T, T) -> bool): (r: seq<T>)
    ensures |r| == |s|
    decreases |s|
  {
    if |s| <= 1 then s
    else
      var m := LeftLength(|s|);
      Merge(MergeSort(s[..m], le), MergeSort(s[m..], le), le)
  }

  lemma {:induction false} MergePermutes<T>(a: seq<T>, b: seq<T>, le: (T, T) -> bool)
    ensures multiset(Merge(a, b, le)) == multiset(a) + multiset(b)
    decreases |a| + |b|
  {
    if a != [] && b != [] {
      if le(a[0], b[0]) {
        MergeTakesLeft(a, b, le);
        MergePermutes(a[1..], b, le);
        SplitAt(a, 1);
        assert a[..1] == [a[0]];
      } else {
        MergeTakesRight(a, b, le);
        MergePermutes(a, b[1..], le);
        SplitAt(b, 1);
        assert b[..1] == [b[0]];
      }
    }
  }

  /** The defining step of `MergeSort` on a sequence of two or more elements. */
  lemma MergeSortUnfold<T>(s: seq<T>, le: (T, T) -> bool)
    requires |s| > 1
    ensures MergeSort(s, le) == Merge(MergeSort(s[..LeftLength(|s|)], le), MergeSort(s[LeftLength(|s|)..], le), le)
  {
  }

  lemma SplitAt<T>(s: seq<T>, m: int)
    requires 0 <= m <= |s|
    ensures s[..m] + s[m..] == s
    ensures multiset(s[..m]) + multiset(s[m..]) == multiset(s)
  {
    assert s[..m] + s[m..] == s;
  }

  lemma {:induction false} MergeSortPermutes<T>(s: seq<T>, le: (T, T) -> bool)
    ensures multiset(MergeSort(s, le)) == multiset(s)
    decreases |s|
  {
    if |s| > 1 {
      var m := LeftLength(|s|);
      var l, r := s[..m], s[m..];
      MergeSortPermutes(l, le);
      MergeSortPermutes(r, le);
      MergeSortUnfold(s, le);
      MergePermutes(MergeSort(l, le), MergeSort(r, le), le);
      SplitAt(s, m);
    }
  }

  lemma WithinPermutation<T>(a: seq<T>, b: seq<T>, u: set<T>)
    requires multiset(a) == multiset(b) && Within(a, u)
    ensures Within(b, u)
  {
    forall i | 0 <= i < |b| ensures b[i] in u {
      assert b[i] in multiset(a);
    }
  }

  lemma WithinSlices<T>(s: seq<T>, m: nat, u: set<T>)
    requires m <= |s| && Within(s, u)
    ensures Within(s[..m], u) && Within(s[m..], u)
  {
  }

  /** An element that may come before everything in `t` can be put in front of it. */
  lemma SortedCons<T>(x: T, t: seq<T>, le: (T, T) -> bool)
    requires SortedBy(t, le)
    requires forall j :: 0 <= j < |t| ==> le(x, t[j])
    ensures SortedBy([x] + t, le)
  {
    var s := [x] + t;
    forall i, j | 0 <= i < j < |s| ensures le(s[i], s[j]) {
      if i > 0 {
        assert s[i] == t[i - 1] && s[j] == t[j - 1];
      }
    }
  }

  /** The head of a sorted run that may come before `y` may come before every element of the run's tail. */
  lemma HeadBeforeRun<T>(x: T, a: seq<T>, y: T, le: (T, T) -> bool, u: set<T>)
    requires TotalPreorderOn(u, le) && Within(a, u) && x in u && y in multiset(a)
    requires SortedBy(a, le) && a != [] && le(x, a[0])
    ensures le(x, y)
  {
    var k :| 0 <= k < |a| && a[k] == y;
    if k > 0 {
      assert le(a[0], a[k]);
    }
  }

  lemma {:induction false} MergeSorted<T>(a: seq<T>, b: seq<T>, le: (T, T) -> bool, u: set<T>)
    requires TotalPreorderOn(u, le) && Within(a, u) && Within(b, u)
    requires SortedBy(a, le) && SortedBy(b, le)
    ensures SortedBy(Merge(a, b, le), le)
    decreases |a| + |b|
  {
    if a != [] && b != [] {
      if le(a[0], b[0]) {
        var t := Merge(a[1..], b, le);
        MergeSorted(a[1..], b, le, u);
        MergePermutes(a[1..], b, le);
        forall j | 0 <= j < |t| ensures le(a[0], t[j]) {
          assert t[j] in multiset(a[1..]) + multiset(b);
          if t[j] in multiset(a[1..]) {
            var k :| 0 <= k < |a[1..]| && a[1..][k] == t[j];
            assert le(a[0], a[k + 1]);
          } else {
            HeadBeforeRun(a[0], b, t[j], le, u);
          }
        }
        SortedCons(a[0], t, le);
      } else {
        var t := Merge(a, b[1..], le);
        assert le(b[0], a[0]);
        MergeSorted(a, b[1..], le, u);
        MergePermutes(a, b[1..], le);
        forall j | 0 <= j < |t| ensures le(b[0], t[j]) {
          assert t[j] in multiset(a) + multiset(b[1..]);
          if t[j] in multiset(b[1..]) {
            var k :| 0 <= k < |b[1..]| && b[1..][k] == t[j];
            assert le(b[0], b[k + 1]);
          } else {
            HeadBeforeRun(b[0], a, t[j], le, u);
          }
        }
        SortedCons(b[0], t, le);
      }
    }
  }

  lemma {:induction false} MergeSortSorted<T>(s: seq<T>, le: (T, T) -> bool, u: set<T>)
    requires TotalPreorderOn(u, le) && Within(s, u)
    ensures SortedBy(MergeSort(s, le), le)
    decreases |s|
  {
    if |s| > 1 {
      var m := LeftLength(|s|);
      WithinSlices(s, m, u);
      MergeSortSorted(s[..m], le, u);
      MergeSortSorted(s[m..], le, u);
      MergeSortPermutes(s[..m], le);
      MergeSortPermutes(s[m..], le);
      WithinPermutation(s[..m], MergeSort(s[..m], le), u);
      WithinPermutation(s[m..], MergeSort(s[m..], le), u);
      MergeSorted(MergeSort(s[..m], le), MergeSort(s[m..], le), le, u);
    }
  }

  /** Merging keeps, within each class of equivalent elements, the first run's elements ahead of the second's. */
  lemma {:induction false} MergeStable<T>(a: seq<T>, b: seq<T>, le: (T, T) -> bool, u: set<T>, c: T)
    requires TotalPreorderOn(u, le) && Within(a, u) && Within(b, u) && c in u
    requires SortedBy(a, le) && SortedBy(b, le)
    ensures Filter(Merge(a, b, le), EquivTo(le, c)) == Filter(a, EquivTo(le, c)) + Filter(b, EquivTo(le, c))
    decreases |a| + |b|
  {
    var e := EquivTo(le, c);
    if a == [] {
      assert Filter(a, e) == [];
    } else if b == [] {
      assert Filter(b, e) == [];
    } else if le(a[0], b[0]) {
      TailOrdered(a, le, u);
      MergeStable(a[1..], b, le, u, c);
      StableStepLeft(a, b, le, e);
    } else {
      TailOrdered(b, le, u);
      MergeStable(a, b[1..], le, u, c);
      if e(b[0]) {
        ClassAfterRun(a, b[0], le, u, c);
        StableStepRightIn(a, b, le, e);
      } else {
        StableStepRightOut(a, b, le, e);
      }
    }
  }

  lemma TailOrdered<T>(s: seq<T>, le: (T, T) -> bool, u: set<T>)
    requires Within(s, u) && SortedBy(s, le) && s != []
    ensures Within(s[1..], u) && SortedBy(s[1..], le)
  {
  }

  lemma MergeTakesLeft<T>(a: seq<T>, b: seq<T>, le: (T, T) -> bool)
    requires a != [] && b != [] && le(a[0], b[0])
    ensures Merge(a, b, le) == [a[0]] + Merge(a[1..], b, le)
  {
  }

  lemma MergeTakesRight<T>(a: seq<T>, b: seq<T>, le: (T, T) -> bool)
    requires a != [] && b != [] && !le(a[0], b[0])
    ensures Merge(a, b, le) == [b[0]] + Merge(a, b[1..], le)
  {
  }

  /** The step of `MergeStable` that takes the head of the first run. */
  lemma StableStepLeft<T>(a: seq<T>, b: seq<T>, le: (T, T) -> bool, e: T -> bool)
    requires a != [] && b != [] && le(a[0], b[0])
    requires Filter(Merge(a[1..], b, le), e) == Filter(a[1..], e) + Filter(b, e)
    ensures Filter(Merge(a, b, le), e) == Filter(a, e) + Filter(b, e)
  {
    var m := Merge(a[1..], b, le);
    MergeTakesLeft(a, b, le);
    FilterCons(a[0], m, e);
    FilterUnfold(a, e);
    ConcatAssoc(if e(a[0]) then [a[0]] else [], Filter(a[1..], e), Filter(b, e));
  }

  /** The step of `MergeStable` that takes the head of the second run, when that head passes `e`. */
  lemma StableStepRightIn<T>(a: seq<T>, b: seq<T>, le: (T, T) -> bool, e: T -> bool)
    requires a != [] && b != [] && !le(a[0], b[0]) && e(b[0]) && Filter(a, e) == []
    requires Filter(Merge(a, b[1..], le), e) == Filter(b[1..], e)
    ensures Filter(Merge(a, b, le), e) == Filter(b, e)
  {
    MergeTakesRight(a, b, le);
    FilterCons(b[0], Merge(a, b[1..], le), e);
    FilterUnfold(b, e);
  }

  /** The step of `MergeStable` that takes the head of the second run, when that head fails `e`. */
  lemma StableStepRightOut<T>(a: seq<T>, b: seq<T>, le: (T, T) -> bool, e: T -> bool)
    requires a != [] && b != [] && !le(a[0], b[0]) && !e(b[0])
    ensures Filter(Merge(a, b, le), e) == Filter(Merge(a, b[1..], le), e)
    ensures Filter(b, e) == Filter(b[1..], e)
  {
    MergeTakesRight(a, b, le);
    FilterCons(b[0], Merge(a, b[1..], le), e);
    FilterUnfold(b, e);
  }

  /** No element of a sorted run belongs to the class of an element that goes strictly before the run's head. */
  lemma ClassAfterRun<T>(a: seq<T>, x: T, le: (T, T) -> bool, u: set<T>, c: T)
    requires TotalPreorderOn(u, le) && Within(a, u) && x in u && c in u && SortedBy(a, le)
    requires a != [] && !le(a[0], x) && EquivTo(le, c)(x)
    ensures Filter(a, EquivTo(le, c)) == []
  {
    var e := EquivTo(le, c);
    forall i | 0 <= i < |a| ensures !e(a[i]) {
      if i > 0 {
        assert le(a[0], a[i]);
      }
    }
    FilterDropsAll(a, e);
  }

  lemma {:induction false} MergeSortStable<T>(s: seq<T>, le: (T, T) -> bool, u: set<T>, c: T)
    requires TotalPreorderOn(u, le) && Within(s, u) && c in u
    ensures Filter(MergeSort(s, le), EquivTo(le, c)) == Filter(s, EquivTo(le, c))
    decreases |s|
  {
    if |s| > 1 {
      var m := LeftLength(|s|);
      var l, r := MergeSort(s[..m], le), MergeSort(s[m..], le);
      WithinSlices(s, m, u);
      MergeSortStable(s[..m], le, u, c);
      MergeSortStable(s[m..], le, u, c);
      MergeSortSorted(s[..m], le, u);
      MergeSortSorted(s[m..], le, u);
      MergeSortPermutes(s[..m], le);
      MergeSortPermutes(s[m..], le);
      WithinPermutation(s[..m], l, u);
      WithinPermutation(s[m..], r, u);
      MergeSortUnfold(s, le);
      MergeStable(l, r, le, u, c);
      FilterConcat(s[..m], s[m..], EquivTo(le, c));
      SplitAt(s, m);
    }
  }

  /** The merge sort is a stable sort. */
  lemma MergeSortIsStableSort<T>(s: seq<T>, le: (T, T) -> bool, u: set<T>)
    requires TotalPreorderOn(u, le) && Within(s, u)
    ensures IsStableSort(MergeSort(s, le), s, le, u)
  {
    MergeSortPermutes(s, le);
    MergeSortSorted(s, le, u);
    forall c | c in u
      ensures Filter(MergeSort(s, le), EquivTo(le, c)) == Filter(s, EquivTo(le, c))
    {
      MergeSortStable(s, le, u, c);
    }
  }

  /** The first element of a filter is the first element of the sequence that passes. */
  lemma FilterHead<T>(s: seq<T>, p: T -> bool)
    requires s != [] && p(s[0])
    ensures Filter(s, p) == [s[0]] + Filter(s[1..], p)
  {
  }

  /** The two sequences hold the same elements of every equivalence class, in the same order. */
  ghost predicate SameClasses<T>(x: seq<T>, y: seq<T>, le: (T, T) -> bool, u: set<T>) {
    forall c :: c in u ==> Filter(x, EquivTo(le, c)) == Filter(y, EquivTo(le, c))
  }

  /** The head of a sorted sequence that occurs in another sorted one with the same classes is at least as early as its head. */
  lemma HeadComesFirst<T>(x: seq<T>, y: seq<T>, le: (T, T) -> bool, u: set<T>)
    requires TotalPreorderOn(u, le) && Within(x, u) && Within(y, u)
    requires SortedBy(y, le) && SameClasses(x, y, le, u)
    requires x != [] && y != []
    ensures le(y[0], x[0])
  {
    var e := EquivTo(le, x[0]);
    FilterHead(x, e);
    assert Filter(x, e) == Filter(y, e);
    FilterMembers(y, e, x[0]);
    var k :| 0 <= k < |y| && y[k] == x[0];
    if k > 0 {
      assert le(y[0], y[k]);
    }
  }

  lemma HeadsAgree<T>(x: seq<T>, y: seq<T>, le: (T, T) -> bool, u: set<T>)
    requires TotalPreorderOn(u, le) && Within(x, u) && Within(y, u)
    requires SortedBy(x, le) && SortedBy(y, le) && SameClasses(x, y, le, u)
    requires x != [] && y != []
    ensures x[0] == y[0]
  {
    HeadComesFirst(x, y, le, u);
    HeadComesFirst(y, x, le, u);
    var e := EquivTo(le, x[0]);
    assert e(y[0]);
    assert x[0] in u;
    assert e(x[0]);
    FilterHead(x, e);
    FilterHead(y, e);
    assert Filter(x, e) == Filter(y, e);
    assert Filter(x, e)[0] == x[0] && Filter(y, e)[0] == y[0];
  }

  lemma NonEmptyHasClass<T>(x: seq<T>, le: (T, T) -> bool, u: set<T>)
    requires TotalPreorderOn(u, le) && Within(x, u) && x != []
    ensures Filter(x, EquivTo(le, x[0])) != []
  {
    assert x[0] in u;
    FilterHead(x, EquivTo(le, x[0]));
  }

  lemma EmptyTogether<T>(x: seq<T>, y: seq<T>, le: (T, T) -> bool, u: set<T>)
    requires TotalPreorderOn(u, le) && Within(x, u) && Within(y, u) && SameClasses(x, y, le, u)
    ensures x == [] <==> y == []
  {
    if x != [] {
      NonEmptyHasClass(x, le, u);
      assert Filter(y, EquivTo(le, x[0])) != [];
    }
    if y != [] {
      NonEmptyHasClass(y, le, u);
      assert Filter(x, EquivTo(le, y[0])) != [];
    }
  }

  lemma TailsAgree<T>(x: seq<T>, y: seq<T>, le: (T, T) -> bool, u: set<T>)
    requires SameClasses(x, y, le, u) && x != [] && y != [] && x[0] == y[0]
    ensures SameClasses(x[1..], y[1..], le, u)
  {
    forall c | c in u
      ensures Filter(x[1..], EquivTo(le, c)) == Filter(y[1..], EquivTo(le, c))
    {
      var e := EquivTo(le, c);
      FilterConcat([x[0]], x[1..], e);
      FilterConcat([y[0]], y[1..], e);
      assert x == [x[0]] + x[1..] && y == [y[0]] + y[1..];
      var p := Filter([x[0]], e);
      assert Filter(x, e) == Filter(y, e);
      assert Filter(x[1..], e) == (p + Filter(x[1..], e))[|p|..];
      assert Filter(y[1..], e) == (p + Filter(y[1..], e))[|p|..];
    }
  }

  /**
   * Stable sorts agree: two sequences that are each ordered by `le` and hold the same
   * elements of every equivalence class in the same order are equal. So every stable
   * sorting algorithm (Java's among them) computes `MergeSort`.
   */
  lemma {:induction false} StableSortsAgree<T>(x: seq<T>, y: seq<T>, le: (T, T) -> bool, u: set<T>)
    requires TotalPreorderOn(u, le) && Within(x, u) && Within(y, u)
    requires SortedBy(x, le) && SortedBy(y, le) && SameClasses(x, y, le, u)
    ensures x == y
    decreases |x| + |y|
  {
    EmptyTogether(x, y, le, u);
    if x != [] {
      HeadsAgree(x, y, le, u);
      TailsAgree(x, y, le, u);
      StableSortsAgree(x[1..], y[1..], le, u);
      assert x == [x[0]] + x[1..] && y == [y[0]] + y[1..];
    }
  }

  /**
   * Sorting commutes with a projection `f` when the order on the elements is the order on
   * their images: `lf(x, y) == le(f(x), f(y))`.
   */
  lemma {:induction false} MergeMap<T, U>(a: seq<T>, b: seq<T>, f: T -> U, lf: (T, T) -> bool, le: (U, U) -> bool)
    requires forall x, y :: lf(x, y) == le(f(x), f(y))
    ensures Map(Merge(a, b, lf), f) == Merge(Map(a, f), Map(b, f), le)
    decreases |a| + |b|
  {
    if a != [] && b != [] {
      assert Map(a, f)[0] == f(a[0]) && Map(b, f)[0] == f(b[0]);
      if lf(a[0], b[0]) {
        MergeTakesLeft(a, b, lf);
        MergeTakesLeft(Map(a, f), Map(b, f), le);
        MergeMap(a[1..], b, f, lf, le);
        assert Map(a, f)[1..] == Map(a[1..], f);
        MapCons(a[0], Merge(a[1..], b, lf), f);
      } else {
        MergeTakesRight(a, b, lf);
        MergeTakesRight(Map(a, f), Map(b, f), le);
        MergeMap(a, b[1..], f, lf, le);
        assert Map(b, f)[1..] == Map(b[1..], f);
        MapCons(b[0], Merge(a, b[1..], lf), f);
      }
    }
  }

  lemma MapCons<T, U>(x: T, t: seq<T>, f: T -> U)
    ensures Map([x] + t, f) == [f(x)] + Map(t, f)
  {
  }

  lemma {:induction false} MergeSortMap<T, U>(s: seq<T>, f: T -> U, lf: (T, T) -> bool, le: (U, U) -> bool)
    requires forall x, y :: lf(x, y) == le(f(x), f(y))
    ensures Map(MergeSort(s, lf), f) == MergeSort(Map(s, f), le)
    decreases |s|
  {
    if |s| > 1 {
      var m := LeftLength(|s|);
      MergeSortUnfold(s, lf);
      MergeSortUnfold(Map(s, f), le);
      assert Map(s, f)[..m] == Map(s[..m], f) && Map(s, f)[m..] == Map(s[m..], f);
      MergeSortMap(s[..m], f, lf, le);
      MergeSortMap(s[m..], f, lf, le);
      MergeMap(MergeSort(s[..m], lf), MergeSort(s[m..], lf), f, lf, le);
    }
  }
}
