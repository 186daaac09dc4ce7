/** Order-preserving filtering of sequences, the model of Java's `stream().filter(p)` and `removeIf(p)`. */
module Seqs {
  import opened Wrappers

  /** The elements of `s` that satisfy `p`, in their original order. */
  function Filter<T>(s: seq<T>, p: T -> bool): (r: seq<T>)
    ensures |r| <= |s|
    ensures forall i :: 0 <= i < |r| ==> p(r[i])
  {
    if s == [] then [] else (if p(s[0]) then [s[0]] else []) + Filter(s[1..], p)
  }

  /** `r` can be obtained from `s` by deleting elements (an order-preserving subsequence). */
  ghost predicate IsSubseq<T>(r: seq<T>, s: seq<T>)
    decreases |s|
  {
    if r == [] then true
    else if s == [] then false
    else (r[0] == s[0] && IsSubseq(r[1..], s[1..])) || IsSubseq(r, s[1..])
  }

  lemma {:induction false} FilterConcat<T>(a: seq<T>, b: seq<T>, p: T -> bool)
    ensures Filter(a + b, p) == Filter(a, p) + Filter(b, p)
    decreases |a|
  {
    if a == [] {
      assert a + b == b;
    } else {
      assert (a + b)[1..] == a[1..] + b;
      FilterConcat(a[1..], b, p);
    }
  }

  lemma ConcatAssoc<T>(a: seq<T>, b: seq<T>, c: seq<T>)
    ensures a + (b + c) == (a + b) + c
  {
  }

  /** The defining step of `Filter` on a non-empty sequence. */
  lemma FilterUnfold<T>(s: seq<T>, p: T -> bool)
    requires s != []
    ensures Filter(s, p) == (if p(s[0]) then [s[0]] else []) + Filter(s[1..], p)
  {
  }

  /** One more element at the front. */
  lemma FilterCons<T>(x: T, t: seq<T>, p: T -> bool)
    ensures Filter([x] + t, p) == (if p(x) then [x] else []) + Filter(t, p)
  {
    assert ([x] + t)[1..] == t;
  }

  /** One more element at the end: the step a `for` loop that collects matches takes. */
  lemma FilterAppend<T>(s: seq<T>, x: T, p: T -> bool)
    ensures Filter(s + [x], p) == Filter(s, p) + (if p(x) then [x] else [])
  {
    FilterConcat(s, [x], p);
    assert Filter([x], p) == (if p(x) then [x] else []) + Filter([x][1..], p);
  }

  /** An element is kept exactly when it occurs in `s` and satisfies `p`. */
  lemma {:induction false} FilterMembers<T>(s: seq<T>, p: T -> bool, x: T)
    ensures x in Filter(s, p) <==> x in s && p(x)
  {
    if s != [] {
      FilterMembers(s[1..], p, x);
      assert s == [s[0]] + s[1..];
    }
  }

  /** Every occurrence of a kept value survives, and no occurrence of a dropped one. */
  lemma {:induction false} FilterCount<T>(s: seq<T>, p: T -> bool, x: T)
    ensures multiset(Filter(s, p))[x] == if p(x) then multiset(s)[x] else 0
  {
    if s != [] {
      FilterCount(s[1..], p, x);
      assert s == [s[0]] + s[1..];
      assert multiset(s) == multiset([s[0]]) + multiset(s[1..]);
    }
  }

  /** `FilterCount` for every value at once. */
  lemma FilterCountAll<T>(s: seq<T>, p: T -> bool)
    ensures forall x :: multiset(Filter(s, p))[x] == if p(x) then multiset(s)[x] else 0
  {
    forall x ensures multiset(Filter(s, p))[x] == if p(x) then multiset(s)[x] else 0 {
      FilterCount(s, p, x);
    }
  }

  lemma {:induction false} FilterIsSubseq<T>(s: seq<T>, p: T -> bool)
    ensures IsSubseq(Filter(s, p), s)
  {
    if s != [] {
      FilterIsSubseq(s[1..], p);
      var r := Filter(s, p);
      if p(s[0]) {
        assert r == [s[0]] + Filter(s[1..], p);
        assert r[1..] == Filter(s[1..], p);
      } else {
        assert r == Filter(s[1..], p);
        if r != [] {
          assert IsSubseq(r, s[1..]);
        }
      }
    }
  }

  /** Two filters applied one after the other keep what their conjunction keeps. */
  lemma {:induction false} FilterCompose<T>(s: seq<T>, p: T -> bool, q: T -> bool, pq: T -> bool)
    requires forall x :: pq(x) == (p(x) && q(x))
    ensures Filter(Filter(s, p), q) == Filter(s, pq)
  {
    if s != [] {
      FilterCompose(s[1..], p, q, pq);
      var head := if p(s[0]) then [s[0]] else [];
      FilterConcat(head, Filter(s[1..], p), q);
      assert Filter(head, q) == if pq(s[0]) then [s[0]] else [] by {
        if p(s[0]) {
          assert Filter(head, q) == (if q(s[0]) then [s[0]] else []) + Filter(head[1..], q);
        }
      }
    }
  }

  /** Filtering depends only on what the predicate says about each element. */
  lemma {:induction false} FilterExtensional<T>(s: seq<T>, p: T -> bool, q: T -> bool)
    requires forall i :: 0 <= i < |s| ==> p(s[i]) == q(s[i])
    ensures Filter(s, p) == Filter(s, q)
  {
    if s != [] {
      FilterExtensional(s[1..], p, q);
    }
  }

  /** A filter that no element passes keeps nothing. */
  lemma {:induction false} FilterDropsAll<T>(s: seq<T>, p: T -> bool)
    requires forall i :: 0 <= i < |s| ==> !p(s[i])
    ensures Filter(s, p) == []
  {
    if s != [] {
      FilterDropsAll(s[1..], p);
    }
  }

  /** A filter that every element passes changes nothing. */
  lemma {:induction false} FilterKeepsAll<T>(s: seq<T>, p: T -> bool)
    requires forall i :: 0 <= i < |s| ==> p(s[i])
    ensures Filter(s, p) == s
  {
    if s != [] {
      FilterKeepsAll(s[1..], p);
    }
  }

  /** `k` is the position of the first element of `s` that satisfies `p`. */
  ghost predicate IsFirstMatch<T>(s: seq<T>, p: T -> bool, k: int) {
    0 <= k < |s| && p(s[k]) && forall j :: 0 <= j < k ==> !p(s[j])
  }

  lemma FirstMatchShift<T>(s: seq<T>, p: T -> bool)
    requires s != [] && !p(s[0])
    ensures forall k :: IsFirstMatch(s[1..], p, k) ==> IsFirstMatch(s, p, k + 1) && s[1..][k] == s[k + 1]
    ensures forall k :: IsFirstMatch(s, p, k) ==> k >= 1 && IsFirstMatch(s[1..], p, k - 1)
  {
  }

  /** The first element satisfying `p` (a linear scan from the front), or `None`. */
  function FindFirst<T>(s: seq<T>, p: T -> bool): (r: Option<T>)
    ensures r.None? <==> forall j :: 0 <= j < |s| ==> !p(s[j])
    ensures r.Some? ==> r.value in s && p(r.value)
  {
    if s == [] then None
    else if p(s[0]) then Some(s[0])
    else FindFirst(s[1..], p)
  }

  /** `FindFirst` answers with the element at the first matching position. */
  lemma {:induction false} FindFirstAt<T>(s: seq<T>, p: T -> bool, k: int)
    requires IsFirstMatch(s, p, k)
    ensures FindFirst(s, p) == Some(s[k])
  {
    if k > 0 {
      FirstMatchShift(s, p);
      FindFirstAt(s[1..], p, k - 1);
    }
  }

  /** `f` applied to every element, in order (Java's `stream().map(f)`). */
  function Map<T, U>(s: seq<T>, f: T -> U): (r: seq<U>)
  {
    seq(|s|, i requires 0 <= i < |s| => f(s[i]))
  }

  /** `s` without its first element satisfying `p`. */
  function RemoveFirst<T>(s: seq<T>, p: T -> bool): (r: seq<T>)
    ensures |r| == |s| || |r| == |s| - 1
  {
    if s == [] then []
    else if p(s[0]) then s[1..]
    else [s[0]] + RemoveFirst(s[1..], p)
  }

  /** With no match nothing is removed. */
  lemma {:induction false} RemoveFirstNone<T>(s: seq<T>, p: T -> bool)
    requires forall j :: 0 <= j < |s| ==> !p(s[j])
    ensures RemoveFirst(s, p) == s
  {
    if s != [] {
      RemoveFirstNone(s[1..], p);
    }
  }

  /** Exactly the element at the first matching position is removed; the rest keep their order. */
  lemma {:induction false} RemoveFirstAt<T>(s: seq<T>, p: T -> bool, k: int)
    requires IsFirstMatch(s, p, k)
    ensures RemoveFirst(s, p) == s[..k] + s[k + 1..]
  {
    if k > 0 {
      FirstMatchShift(s, p);
      RemoveFirstAt(s[1..], p, k - 1);
      assert s[..k] + s[k + 1..] == [s[0]] + (s[1..][..k - 1] + s[1..][k..]);
    }
  }

  /** Deleting position `k` takes exactly one occurrence of `s[k]` out of the multiset. */
  lemma MultisetRemoveAt<T>(s: seq<T>, k: int)
    requires 0 <= k < |s|
    ensures multiset(s[..k] + s[k + 1..]) == multiset(s) - multiset{s[k]}
  {
    assert s == s[..k] + s[k..];
    assert s[k..] == [s[k]] + s[k + 1..];
  }

  /** `FindFirst` agrees with every first match (there is at most one). */
  lemma FindFirstAtAny<T>(s: seq<T>, p: T -> bool)
    ensures forall k :: IsFirstMatch(s, p, k) ==> FindFirst(s, p) == Some(s[k])
  {
    forall k | IsFirstMatch(s, p, k) ensures FindFirst(s, p) == Some(s[k]) {
      FindFirstAt(s, p, k);
    }
  }

  lemma FilterMembersAll<T>(s: seq<T>, p: T -> bool)
    ensures forall x :: x in Filter(s, p) <==> x in s && p(x)
  {
    forall x ensures x in Filter(s, p) <==> x in s && p(x) {
      FilterMembers(s, p, x);
    }
  }
}
