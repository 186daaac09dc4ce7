/**
 * The recursive merge sort of a chain of vendor nodes by rating, highest first
 * (util/VendorSorter.java). The sort relinks the nodes through their `next` fields and never
 * touches a node's vendor.
 *
 * util/VendorNode.java is field for field the node of util/dsa/VendorNode.java, so the one
 * class `VendorList.VendorNode` stands for both. A chain is described by a ghost sequence of
 * entries, each a node paired with the vendor it holds: `Linked(head, Nodes(es))` says how the
 * nodes are chained and `Holds(es)` that each node holds its vendor.
 */
module VendorSorting {
  import opened Seqs
  import opened Sorting
  import opened VendorModel
  import opened VendorList

  type Entry = (VendorNode, VendorRecord)

  function Nodes(es: seq<Entry>): seq<VendorNode> {
    seq(|es|, i requires 0 <= i < |es| => es[i].0)
  }

  function Vendor(e: Entry): VendorRecord {
    e.1
  }

  /** The vendors of the entries, in chain order. */
  function Vendors(es: seq<Entry>): seq<VendorRecord> {
    Map(es, Vendor)
  }

  /** Every node holds the vendor it is paired with. */
  ghost predicate Holds(es: seq<Entry>)
    reads (set e | e in es :: e.0)`vendor
  {
    forall i :: 0 <= i < |es| ==> es[i].0.vendor == es[i].1
  }

  /** The order `merge` tests: the entry of `x` may come first when its rating is at least `y`'s. */
  function EntryGe(x: Entry, y: Entry): bool {
    x.1.rating >= y.1.rating
  }

  lemma NodesSlices(es: seq<Entry>, m: int)
    requires 0 <= m <= |es|
    ensures Nodes(es[..m]) == Nodes(es)[..m] && Nodes(es[m..]) == Nodes(es)[m..]
  {
  }

  lemma NodesCons(e: Entry, t: seq<Entry>)
    ensures Nodes([e] + t) == [e.0] + Nodes(t)
  {
  }

  lemma NodesConcat(x: seq<Entry>, y: seq<Entry>)
    ensures Nodes(x + y) == Nodes(x) + Nodes(y)
  {
  }

  /** Entries with the same multiset have the same nodes. */
  lemma NodesPermutation(x: seq<Entry>, y: seq<Entry>)
    requires multiset(x) == multiset(y)
    ensures forall n :: n in Nodes(x) ==> n in Nodes(y)
  {
    forall n | n in Nodes(x) ensures n in Nodes(y) {
      var i :| 0 <= i < |x| && Nodes(x)[i] == n;
      assert x[i] in multiset(y);
      var j :| 0 <= j < |y| && y[j] == x[i];
      assert Nodes(y)[j] == n;
    }
  }

  /** Entries with the same multiset make the same pairing of nodes and vendors. */
  lemma HoldsPermutation(x: seq<Entry>, y: seq<Entry>)
    requires multiset(x) == multiset(y) && Holds(x)
    ensures Holds(y)
  {
    forall j | 0 <= j < |y| ensures y[j].0.vendor == y[j].1 {
      assert y[j] in multiset(x);
      var i :| 0 <= i < |x| && x[i] == y[j];
    }
  }

  /**
   * The slow/fast pointer walk: `fast` moves two nodes for each node `slow` moves, and `slow`
   * stops at index (n-1)/2 of a chain of n nodes, the last node of the left half.
   */
  method GetMiddle(head: VendorNode?, ghost ns: seq<VendorNode>) returns (middle: VendorNode?)
    requires Linked(head, ns)
    ensures ns == [] ==> middle == null
    ensures ns != [] ==> middle == ns[(|ns| - 1) / 2]
  {
    if head == null {
      return head;
    }
    var slow, fast := head, head;
    ghost var s, f := 0, 0;
    NextOf(head, ns, 0);
    while fast.next != null && fast.next.next != null
      invariant f == 2 * s && f < |ns|
      invariant slow == ns[s] && fast == ns[f]
      decreases |ns| - f
    {
      NextOf(head, ns, f + 1);
      NextOf(head, ns, s);
      slow := slow.next;
      fast := fast.next.next;
      s, f := s + 1, f + 2;
      NextOf(head, ns, f);
    }
    NextOf(head, ns, f);
    if f + 1 < |ns| {
      NextOf(head, ns, f + 1);
    }
    middle := slow;
  }

  /**
   * Cuts the chain after `middle`, the node at position `i`: the `setNext(null)` of `mergeSort`.
   * Both halves are chains, and no vendor moves.
   */
  method Cut(ghost head: VendorNode?, ghost ns: seq<VendorNode>, ghost i: int, middle: VendorNode)
    returns (rest: VendorNode?)
    requires Linked(head, ns) && 0 <= i < |ns| - 1 && middle == ns[i]
    modifies middle`next
    ensures Linked(head, ns[..i + 1]) && Linked(rest, ns[i + 1..])
  {
    NextOf(head, ns, i);
    rest := middle.next;
    middle.next := null;
    var left := ns[..i + 1];
    assert forall j :: 0 <= j < |left| ==> left[j] == ns[j];
    var right := ns[i + 1..];
    assert forall j :: 0 <= j < |right| ==> right[j] == ns[j + i + 1];
  }

  /** The nodes of the entries, as a set: the footprint of a chain. */
  ghost function NodeSet(es: seq<Entry>): set<VendorNode> {
    set e | e in es :: e.0
  }

  lemma NodeSetIsNodes(es: seq<Entry>)
    ensures forall n :: n in NodeSet(es) <==> n in Nodes(es)
  {
    forall n | n in Nodes(es) ensures n in NodeSet(es) {
      var i :| 0 <= i < |es| && Nodes(es)[i] == n;
      assert es[i] in es;
    }
    forall n | n in NodeSet(es) ensures n in Nodes(es) {
      var e :| e in es && e.0 == n;
      var i :| 0 <= i < |es| && es[i] == e;
      assert Nodes(es)[i] == n;
    }
  }

  lemma NodeSetSlices(es: seq<Entry>, m: int)
    requires 0 <= m <= |es|
    ensures NodeSet(es[..m]) <= NodeSet(es) && NodeSet(es[m..]) <= NodeSet(es)
  {
    forall e | e in es[..m] ensures e in es { }
    forall e | e in es[m..] ensures e in es { }
  }

  /** Entries with the same multiset have the same footprint. */
  lemma NodeSetPermutation(x: seq<Entry>, y: seq<Entry>)
    requires multiset(x) == multiset(y)
    ensures NodeSet(x) == NodeSet(y)
  {
    forall e ensures e in x <==> e in y {
      assert e in x <==> e in multiset(x);
      assert e in y <==> e in multiset(y);
    }
  }

  /** What the recursive call of `merge` on the rest of the chain at `a` needs. */
  lemma TailReady(a: VendorNode, xs: seq<Entry>, ys: seq<Entry>)
    requires Linked(a, Nodes(xs)) && Holds(xs) && NodeSet(xs) !! NodeSet(ys)
    ensures Linked(a.next, Nodes(xs[1..])) && Holds(xs[1..])
    ensures NodeSet(xs[1..]) <= NodeSet(xs) && NodeSet(xs[1..]) !! NodeSet(ys)
  {
    NodesSlices(xs, 1);
    NodeSetSlices(xs, 1);
    LinkedTail(a, Nodes(xs));
  }

  /**
   * The first entry's node is on neither the rest of its chain nor a disjoint chain, so it is
   * not on any rearrangement `ts` of the two.
   */
  lemma HeadOutside(xs: seq<Entry>, ys: seq<Entry>, ts: seq<Entry>)
    requires xs != [] && Distinct(Nodes(xs)) && NodeSet(xs) !! NodeSet(ys)
    requires multiset(ts) == multiset(xs[1..]) + multiset(ys)
    ensures xs[0].0 !in Nodes(ts)
  {
    var n := xs[0].0;
    assert xs[0] in xs;
    assert multiset(ts) == multiset(xs[1..] + ys);
    NodeSetPermutation(ts, xs[1..] + ys);
    NodeSetIsNodes(ts);
    assert n in NodeSet(xs);
    forall e | e in xs[1..] ensures e.0 != n {
      var j :| 1 <= j < |xs| && xs[j] == e;
      assert Nodes(xs)[0] == n && Nodes(xs)[j] == e.0;
    }
    NodeSetConcat(xs[1..], ys);
  }

  lemma NodeSetConcat(x: seq<Entry>, y: seq<Entry>)
    ensures NodeSet(x + y) == NodeSet(x) + NodeSet(y)
  {
    forall e ensures e in x + y <==> e in x || e in y { }
  }

  /**
   * Merges two disjoint chains, each sorted by rating: on equal ratings the node of `a` is
   * taken first. The result is `Merge` of the two entry sequences. `fp` is a footprint that
   * covers both chains.
   */
  method MergeNodes(a: VendorNode?, ghost xs: seq<Entry>, b: VendorNode?, ghost ys: seq<Entry>,
                    ghost fp: set<VendorNode>)
    returns (r: VendorNode?, ghost rs: seq<Entry>)
    requires Linked(a, Nodes(xs)) && Linked(b, Nodes(ys)) && Holds(xs) && Holds(ys)
    requires NodeSet(xs) !! NodeSet(ys) && NodeSet(xs) + NodeSet(ys) <= fp
    modifies fp`next
    ensures Linked(r, Nodes(rs))
    ensures rs == Merge(xs, ys, EntryGe)
    decreases |xs| + |ys|
  {
    if a == null {
      return b, ys;
    }
    if b == null {
      return a, xs;
    }
    assert Nodes(xs)[0] == a && Nodes(ys)[0] == b;
    if a.vendor.rating >= b.vendor.rating {
      MergeTakesLeft(xs, ys, EntryGe);
      TailReady(a, xs, ys);
      var t;
      ghost var ts;
      t, ts := MergeNodes(a.next, xs[1..], b, ys, fp);
      MergePermutes(xs[1..], ys, EntryGe);
      HeadOutside(xs, ys, ts);
      Attach(a, xs[0], t, ts);
      r, rs := a, [xs[0]] + ts;
    } else {
      MergeTakesRight(xs, ys, EntryGe);
      TailReady(b, ys, xs);
      var t;
      ghost var ts;
      t, ts := MergeNodes(a, xs, b.next, ys[1..], fp);
      MergePermutes(xs, ys[1..], EntryGe);
      HeadOutside(ys, xs, ts);
      Attach(b, ys[0], t, ts);
      r, rs := b, [ys[0]] + ts;
    }
  }

  /** Makes `node`, which is not on the chain `ts`, its new first node: `result.setNext(...)`. */
  method Attach(node: VendorNode, ghost e: Entry, t: VendorNode?, ghost ts: seq<Entry>)
    requires Linked(t, Nodes(ts)) && node !in Nodes(ts) && e.0 == node
    modifies node`next
    ensures Linked(node, Nodes([e] + ts))
  {
    node.next := t;
    NodesCons(e, ts);
    var ns := Nodes([e] + ts);
    assert forall j :: 0 < j < |ns| ==> ns[j] == Nodes(ts)[j - 1];
  }

  /** The two halves `mergeSort` cuts a chain into: disjoint, inside the whole, and each with its own vendors. */
  lemma Halves(es: seq<Entry>, m: int)
    requires 0 <= m <= |es| && Distinct(Nodes(es)) && Holds(es)
    ensures NodeSet(es[..m]) !! NodeSet(es[m..])
    ensures NodeSet(es[..m]) <= NodeSet(es) && NodeSet(es[m..]) <= NodeSet(es)
    ensures Holds(es[..m]) && Holds(es[m..])
  {
    NodeSetSlices(es, m);
    forall n | n in NodeSet(es[..m]) ensures n !in NodeSet(es[m..]) {
      var e :| e in es[..m] && e.0 == n;
      var i :| 0 <= i < m && es[i] == e;
      forall e' | e' in es[m..] ensures e'.0 != n {
        var j :| m <= j < |es| && es[j] == e';
        assert Nodes(es)[i] == n && Nodes(es)[j] == e'.0;
      }
    }
  }

  /** What `merge` of the two sorted halves needs to know about them. */
  lemma SortedHalves(ls: seq<Entry>, rs: seq<Entry>, lsorted: seq<Entry>, rsorted: seq<Entry>)
    requires Holds(ls) && Holds(rs) && NodeSet(ls) !! NodeSet(rs)
    requires lsorted == MergeSort(ls, EntryGe) && rsorted == MergeSort(rs, EntryGe)
    ensures Holds(lsorted) && Holds(rsorted)
    ensures NodeSet(lsorted) == NodeSet(ls) && NodeSet(rsorted) == NodeSet(rs)
  {
    MergeSortPermutes(ls, EntryGe);
    MergeSortPermutes(rs, EntryGe);
    NodeSetPermutation(lsorted, ls);
    NodeSetPermutation(rsorted, rs);
    HoldsPermutation(ls, lsorted);
    HoldsPermutation(rs, rsorted);
  }

  /**
   * `mergeSort(head)`: a chain of zero or one node comes back as it is; a longer one is cut at
   * its middle, both halves are sorted, and the sorted halves merged. The result is
   * `MergeSort` of the entry sequence.
   */
  method MergeSortNodes(head: VendorNode?, ghost es: seq<Entry>) returns (r: VendorNode?, ghost rs: seq<Entry>)
    requires Linked(head, Nodes(es)) && Holds(es)
    modifies NodeSet(es)`next
    ensures Linked(r, Nodes(rs))
    ensures rs == MergeSort(es, EntryGe) && Holds(rs)
    ensures |es| <= 1 ==> r == head
    decreases |es|, 2
  {
    if head == null {
      return head, es;
    }
    NextOf(head, Nodes(es), 0);
    if head.next == null {
      return head, es;
    }
    ghost var m := LeftLength(|es|);
    var middle := GetMiddle(head, Nodes(es));
    var nextOfMiddle := Cut(head, Nodes(es), m - 1, middle);
    NodesSlices(es, m);
    Halves(es, m);
    ghost var ls, rs0 := es[..m], es[m..];
    var left, right;
    ghost var lsorted, rsorted;
    left, lsorted, right, rsorted := SortHalves(head, ls, nextOfMiddle, rs0);
    SortedHalves(ls, rs0, lsorted, rsorted);
    MergeSortUnfold(es, EntryGe);
    r, rs := MergeNodes(left, lsorted, right, rsorted, NodeSet(es));
    MergeSortPermutes(es, EntryGe);
    HoldsPermutation(es, rs);
  }

  /** The two recursive calls of `mergeSort`, on the disjoint halves of the chain. */
  method SortHalves(lhead: VendorNode, ghost ls: seq<Entry>, rhead: VendorNode, ghost rs: seq<Entry>)
    returns (left: VendorNode?, ghost lsorted: seq<Entry>, right: VendorNode?, ghost rsorted: seq<Entry>)
    requires Linked(lhead, Nodes(ls)) && Linked(rhead, Nodes(rs)) && Holds(ls) && Holds(rs)
    requires NodeSet(ls) !! NodeSet(rs)
    modifies (NodeSet(ls) + NodeSet(rs))`next
    ensures Linked(left, Nodes(lsorted)) && Linked(right, Nodes(rsorted))
    ensures lsorted == MergeSort(ls, EntryGe) && rsorted == MergeSort(rs, EntryGe)
    decreases |ls| + |rs|, 1
  {
    left, lsorted := SortLeft(lhead, ls, rhead, rs);
    right, rsorted := MergeSortNodes(rhead, rs);
  }

  /** The first recursive call: it relinks the left half only, and keeps its footprint. */
  method SortLeft(lhead: VendorNode, ghost ls: seq<Entry>, rhead: VendorNode, ghost rs: seq<Entry>)
    returns (left: VendorNode?, ghost lsorted: seq<Entry>)
    requires Linked(lhead, Nodes(ls)) && Linked(rhead, Nodes(rs)) && Holds(ls) && Holds(rs)
    requires NodeSet(ls) !! NodeSet(rs)
    modifies NodeSet(ls)`next
    ensures Linked(left, Nodes(lsorted)) && Linked(rhead, Nodes(rs))
    ensures lsorted == MergeSort(ls, EntryGe) && NodeSet(lsorted) !! NodeSet(rs)
    decreases |ls| + |rs|, 0
  {
    left, lsorted := MergeSortNodes(lhead, ls);
    MergeSortPermutes(ls, EntryGe);
    NodeSetPermutation(lsorted, ls);
  }

  // ---------------------------------------------------------------------------
  // What the sort promises, stated on `MergeSort(es, EntryGe)`

  lemma EntryGeIsTotalPreorder(u: set<Entry>)
    ensures TotalPreorderOn(u, EntryGe)
  {
  }

  ghost function Entries(es: seq<Entry>): set<Entry> {
    set e | e in es
  }

  /**
   * `merge` of two chains ordered by rating, highest first, is ordered the same way and holds
   * every entry of both, as often as they do.
   */
  lemma MergeByRating(xs: seq<Entry>, ys: seq<Entry>)
    requires forall i, j :: 0 <= i < j < |xs| ==> xs[i].1.rating >= xs[j].1.rating
    requires forall i, j :: 0 <= i < j < |ys| ==> ys[i].1.rating >= ys[j].1.rating
    ensures |Merge(xs, ys, EntryGe)| == |xs| + |ys|
    ensures multiset(Merge(xs, ys, EntryGe)) == multiset(xs) + multiset(ys)
    ensures forall i, j :: 0 <= i < j < |Merge(xs, ys, EntryGe)| ==>
              Merge(xs, ys, EntryGe)[i].1.rating >= Merge(xs, ys, EntryGe)[j].1.rating
  {
    var u := Entries(xs + ys);
    EntryGeIsTotalPreorder(u);
    assert Within(xs, u) by {
      forall i | 0 <= i < |xs| ensures xs[i] in u { assert (xs + ys)[i] == xs[i]; }
    }
    assert Within(ys, u) by {
      forall i | 0 <= i < |ys| ensures ys[i] in u { assert (xs + ys)[|xs| + i] == ys[i]; }
    }
    MergeSorted(xs, ys, EntryGe, u);
    MergePermutes(xs, ys, EntryGe);
  }

  /**
   * The chain `mergeSort` returns holds exactly the entries it was given (each node once, as
   * `Linked` demands distinct nodes), ordered by rating, highest first; its vendors are the
   * stable sort of the input's vendors, so equal ratings keep their original order.
   */
  lemma MergeSortByRating(es: seq<Entry>)
    ensures multiset(MergeSort(es, EntryGe)) == multiset(es)
    ensures forall i, j :: 0 <= i < j < |es| ==>
              MergeSort(es, EntryGe)[i].1.rating >= MergeSort(es, EntryGe)[j].1.rating
    ensures Vendors(MergeSort(es, EntryGe)) == SortByRatingDescending(Vendors(es))
  {
    var u := Entries(es);
    EntryGeIsTotalPreorder(u);
    MergeSortSorted(es, EntryGe, u);
    MergeSortPermutes(es, EntryGe);
    MergeSortMap(es, Vendor, EntryGe, RatingGe);
  }

  /** Equal ratings keep the chain's original order. */
  lemma MergeSortKeepsTies(es: seq<Entry>, rating: real)
    ensures Filter(Vendors(MergeSort(es, EntryGe)), HasRating(rating)) == Filter(Vendors(es), HasRating(rating))
  {
    MergeSortByRating(es);
  }
}
