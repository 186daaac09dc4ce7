/**
 * The in-place price sort of a `VendorLinkedList` (util/dsa/VendorBubbleSorter.java). Despite
 * its name it is an exchange sort: the node `current` is compared with every later node `next`,
 * and the two vendors are swapped when they are out of order, so that after the inner loop
 * `current` holds the cheapest (ascending) or dearest (descending) of the remaining vendors.
 * Only the vendors move; the chain of nodes, `head` and `size` stay as they were.
 *
 * `ExchangeSort` states what the two loops compute on the sequence of vendors.
 */
module VendorBubbleSorting {
  import opened Wrappers
  import opened VendorModel
  import opened VendorList

  /** The test of the inner loop: strict, so equal prices are never swapped. */
  predicate ShouldSwap(ascending: bool, x: VendorRecord, y: VendorRecord) {
    if ascending then x.basePrice > y.basePrice else x.basePrice < y.basePrice
  }

  /** `x` may stay before `y`. */
  predicate InOrder(ascending: bool, x: VendorRecord, y: VendorRecord) {
    if ascending then x.basePrice <= y.basePrice else x.basePrice >= y.basePrice
  }

  function Swap(s: seq<VendorRecord>, i: int, j: int): (r: seq<VendorRecord>)
    requires 0 <= i < |s| && 0 <= j < |s|
    ensures |r| == |s| && r[i] == s[j] && r[j] == s[i]
    ensures forall k :: 0 <= k < |s| && k != i && k != j ==> r[k] == s[k]
  {
    s[i := s[j]][j := s[i]]
  }

  /** The inner loop: position `i` against positions `j`, `j + 1`, ... to the end. */
  function Inner(s: seq<VendorRecord>, ascending: bool, i: int, j: int): (r: seq<VendorRecord>)
    requires 0 <= i < j <= |s|
    ensures |r| == |s|
    decreases |s| - j
  {
    if j == |s| then s
    else Inner(if ShouldSwap(ascending, s[i], s[j]) then Swap(s, i, j) else s, ascending, i, j + 1)
  }

  /** The outer loop from position `i` on. */
  function Outer(s: seq<VendorRecord>, ascending: bool, i: int): (r: seq<VendorRecord>)
    requires 0 <= i <= |s|
    ensures |r| == |s|
    decreases |s| - i
  {
    if i == |s| then s else Outer(Inner(s, ascending, i, i + 1), ascending, i + 1)
  }

  /** The vendors after `sortByPrice(list, ascending)`, given the vendors before. */
  function ExchangeSort(s: seq<VendorRecord>, ascending: bool): (r: seq<VendorRecord>)
    ensures |r| == |s|
  {
    Outer(s, ascending, 0)
  }

  /** Every vendor is in order with every later one. */
  ghost predicate SortedByPrice(s: seq<VendorRecord>, ascending: bool) {
    forall k, m :: 0 <= k < m < |s| ==> InOrder(ascending, s[k], s[m])
  }

  /** The first `i` positions are final: each is in order with everything after it. */
  ghost predicate Settled(s: seq<VendorRecord>, ascending: bool, i: int) {
    forall k, m :: 0 <= k < i && k < m < |s| ==> InOrder(ascending, s[k], s[m])
  }

  // ---------------------------------------------------------------------------
  // The loops on the list

  /** `setVendor` on the two nodes at positions `i` and `j`, through a temporary. */
  method SwapVendors(ghost ns: seq<VendorNode>, ghost i: int, ghost j: int, a: VendorNode, b: VendorNode)
    requires Distinct(ns) && 0 <= i < j < |ns| && a == ns[i] && b == ns[j]
    modifies a`vendor, b`vendor
    ensures Payloads(ns) == Swap(old(Payloads(ns)), i, j)
  {
    var temp := a.vendor;
    a.vendor := b.vendor;
    b.vendor := temp;
    assert forall k :: 0 <= k < |ns| ==> Payloads(ns)[k] == Swap(old(Payloads(ns)), i, j)[k];
  }

  /**
   * `sortByPrice(vendors, ascending)`: a null or empty list comes back untouched; otherwise the
   * vendors are rearranged in place into `ExchangeSort` of their old order. The same list is
   * returned, with the same nodes, `head` and `size`.
   */
  method SortByPrice(list: VendorLinkedList?, ascending: bool) returns (r: VendorLinkedList?)
    requires list != null ==> list.Valid()
    modifies if list == null then {} else (set n | n in list.nodes)`vendor
    ensures r == list
    ensures list != null ==> list.Valid() && list.nodes == old(list.nodes)
    ensures list != null ==> list.head == old(list.head) && list.size == old(list.size)
    ensures list != null ==> list.Contents() == ExchangeSort(old(list.Contents()), ascending)
  {
    if list == null {
      return list;
    }
    var size := list.GetSize();
    if size == 0 {
      return list;
    }
    var current := list.GetHead();
    ghost var ns := list.nodes;
    ghost var s0 := list.Contents();
    ghost var i := 0;
    while current != null
      invariant list.Valid() && list.nodes == ns
      invariant 0 <= i <= |ns| && current == if i < |ns| then ns[i] else null
      invariant Outer(list.Contents(), ascending, i) == ExchangeSort(s0, ascending)
      decreases |ns| - i
    {
      PlaceExtreme(list, ascending, current, i);
      NextOf(list.head, ns, i);
      current := current.next;
      i := i + 1;
    }
    return list;
  }

  /**
   * The inner loop of `sortByPrice`: `current`, the node at position `i`, is compared with
   * every later node and takes its vendor whenever that one should come first.
   */
  method PlaceExtreme(list: VendorLinkedList, ascending: bool, current: VendorNode, ghost i: int)
    requires list.Valid() && 0 <= i < |list.nodes| && current == list.nodes[i]
    modifies (set n | n in list.nodes)`vendor
    ensures list.Contents() == Inner(old(list.Contents()), ascending, i, i + 1)
  {
    ghost var ns := list.nodes;
    ghost var s0 := list.Contents();
    NextOf(list.head, ns, i);
    var next := current.next;
    ghost var j := i + 1;
    while next != null
      invariant list.Valid() && list.nodes == ns
      invariant i < j <= |ns| && next == if j < |ns| then ns[j] else null
      invariant Inner(list.Contents(), ascending, i, j) == Inner(s0, ascending, i, i + 1)
      decreases |ns| - j
    {
      ghost var c := list.Contents();
      assert c[i] == current.vendor && c[j] == next.vendor;
      if ShouldSwap(ascending, current.vendor, next.vendor) {
        SwapVendors(ns, i, j, current, next);
      }
      NextOf(list.head, ns, j);
      next := next.next;
      j := j + 1;
    }
  }

  // ---------------------------------------------------------------------------
  // What the sort promises, stated on `ExchangeSort`

  lemma SwapPermutes(s: seq<VendorRecord>, i: int, j: int)
    requires 0 <= i < |s| && 0 <= j < |s|
    ensures multiset(Swap(s, i, j)) == multiset(s)
  {
  }

  /** The inner loop leaves the positions before `i` alone and only rearranges the rest. */
  lemma {:induction false} InnerKeeps(s: seq<VendorRecord>, ascending: bool, i: int, j: int)
    requires 0 <= i < j <= |s|
    ensures Inner(s, ascending, i, j)[..i] == s[..i]
    ensures multiset(Inner(s, ascending, i, j)[i..]) == multiset(s[i..])
    decreases |s| - j
  {
    if j < |s| {
      var t := if ShouldSwap(ascending, s[i], s[j]) then Swap(s, i, j) else s;
      InnerKeeps(t, ascending, i, j + 1);
      assert t[..i] == s[..i];
      assert multiset(t[i..]) == multiset(s[i..]) by {
        if ShouldSwap(ascending, s[i], s[j]) {
          assert t[i..] == Swap(s[i..], 0, j - i);
          SwapPermutes(s[i..], 0, j - i);
        }
      }
    }
  }

  /**
   * Once position `i` is in order with the positions before `j`, the inner loop leaves it in
   * order with all later positions: the minimum (ascending) or maximum (descending).
   */
  lemma {:induction false} InnerSelects(s: seq<VendorRecord>, ascending: bool, i: int, j: int)
    requires 0 <= i < j <= |s|
    requires forall m :: i < m < j ==> InOrder(ascending, s[i], s[m])
    ensures forall m :: i < m < |s| ==> InOrder(ascending, Inner(s, ascending, i, j)[i], Inner(s, ascending, i, j)[m])
    decreases |s| - j
  {
    if j < |s| {
      var t := if ShouldSwap(ascending, s[i], s[j]) then Swap(s, i, j) else s;
      InnerSelects(t, ascending, i, j + 1);
    }
  }

  /** One pass of the inner loop settles one more position. */
  lemma InnerSettles(s: seq<VendorRecord>, ascending: bool, i: int)
    requires 0 <= i < |s| && Settled(s, ascending, i)
    ensures Settled(Inner(s, ascending, i, i + 1), ascending, i + 1)
  {
    var r := Inner(s, ascending, i, i + 1);
    InnerKeeps(s, ascending, i, i + 1);
    InnerSelects(s, ascending, i, i + 1);
    forall k, m | 0 <= k < i + 1 && k < m < |r| ensures InOrder(ascending, r[k], r[m]) {
      if k < i {
        assert r[k] == r[..i][k] && s[..i][k] == s[k];
        if m < i {
          assert r[m] == r[..i][m] && s[..i][m] == s[m];
        } else {
          assert r[m] == r[i..][m - i];
          assert r[m] in multiset(s[i..]);
          var m' :| 0 <= m' < |s[i..]| && s[i..][m'] == r[m];
          assert s[i..][m'] == s[i + m'];
        }
      }
    }
  }

  lemma {:induction false} OuterSettles(s: seq<VendorRecord>, ascending: bool, i: int)
    requires 0 <= i <= |s| && Settled(s, ascending, i)
    ensures Settled(Outer(s, ascending, i), ascending, |s|)
    ensures multiset(Outer(s, ascending, i)) == multiset(s)
    decreases |s| - i
  {
    if i < |s| {
      var t := Inner(s, ascending, i, i + 1);
      InnerSettles(s, ascending, i);
      OuterSettles(t, ascending, i + 1);
      InnerKeeps(s, ascending, i, i + 1);
      assert s == s[..i] + s[i..] && t == t[..i] + t[i..];
    }
  }

  /**
   * The result is a permutation of the input, ascending by price when `ascending` holds and
   * descending otherwise.
   */
  lemma ExchangeSortSorts(s: seq<VendorRecord>, ascending: bool)
    ensures multiset(ExchangeSort(s, ascending)) == multiset(s)
    ensures SortedByPrice(ExchangeSort(s, ascending), ascending)
  {
    OuterSettles(s, ascending, 0);
  }

  /** The same in terms of prices. */
  lemma ExchangeSortPrices(s: seq<VendorRecord>, ascending: bool)
    ensures forall k, m :: 0 <= k < m < |s| ==>
              if ascending then ExchangeSort(s, ascending)[k].basePrice <= ExchangeSort(s, ascending)[m].basePrice
              else ExchangeSort(s, ascending)[k].basePrice >= ExchangeSort(s, ascending)[m].basePrice
  {
    ExchangeSortSorts(s, ascending);
  }

  /** An inner pass over positions that are already in order swaps nothing. */
  lemma {:induction false} InnerOnSorted(s: seq<VendorRecord>, ascending: bool, i: int, j: int)
    requires 0 <= i < j <= |s|
    requires forall m :: j <= m < |s| ==> InOrder(ascending, s[i], s[m])
    ensures Inner(s, ascending, i, j) == s
    decreases |s| - j
  {
    if j < |s| {
      InnerOnSorted(s, ascending, i, j + 1);
    }
  }

  lemma {:induction false} OuterOnSorted(s: seq<VendorRecord>, ascending: bool, i: int)
    requires 0 <= i <= |s| && SortedByPrice(s, ascending)
    ensures Outer(s, ascending, i) == s
    decreases |s| - i
  {
    if i < |s| {
      InnerOnSorted(s, ascending, i, i + 1);
      OuterOnSorted(s, ascending, i + 1);
    }
  }

  /**
   * Because the test is strict, vendors that are already in order (equal prices included)
   * are never swapped: a sorted list comes back unchanged, and sorting twice changes nothing.
   */
  lemma ExchangeSortKeepsSorted(s: seq<VendorRecord>, ascending: bool)
    requires SortedByPrice(s, ascending)
    ensures ExchangeSort(s, ascending) == s
  {
    OuterOnSorted(s, ascending, 0);
  }

  lemma ExchangeSortIdempotent(s: seq<VendorRecord>, ascending: bool)
    ensures ExchangeSort(ExchangeSort(s, ascending), ascending) == ExchangeSort(s, ascending)
  {
    ExchangeSortSorts(s, ascending);
    ExchangeSortKeepsSorted(ExchangeSort(s, ascending), ascending);
  }

  function PricedAt(id: string, price: real): VendorRecord {
    VendorRecord(id, None, None, None, 0.0, price, None)
  }

  /**
   * The sort is not stable: two vendors of equal price can change places when a cheaper one
   * comes after them. Ascending, [A at 2, B at 2, C at 1] becomes [C, B, A].
   */
  lemma ExchangeSortIsNotStable()
    ensures ExchangeSort([PricedAt("A", 2.0), PricedAt("B", 2.0), PricedAt("C", 1.0)], true)
            == [PricedAt("C", 1.0), PricedAt("B", 2.0), PricedAt("A", 2.0)]
  {
    var a, b, c := PricedAt("A", 2.0), PricedAt("B", 2.0), PricedAt("C", 1.0);
    assert Inner([a, b, c], true, 0, 1) == [c, b, a] by {
      assert Inner([a, b, c], true, 0, 1) == Inner([a, b, c], true, 0, 2);
      assert Swap([a, b, c], 0, 2) == [c, b, a];
      assert Inner([a, b, c], true, 0, 2) == Inner([c, b, a], true, 0, 3);
    }
    assert Inner([c, b, a], true, 1, 2) == [c, b, a] by {
      assert Inner([c, b, a], true, 1, 2) == Inner([c, b, a], true, 1, 3);
    }
    assert Outer([a, b, c], true, 0) == Outer([c, b, a], true, 1);
    assert Outer([c, b, a], true, 1) == Outer([c, b, a], true, 2);
    assert Outer([c, b, a], true, 2) == Outer(Inner([c, b, a], true, 2, 3), true, 3);
  }
}
