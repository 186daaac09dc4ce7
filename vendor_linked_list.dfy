/**
 * The hand-written singly linked list of vendors (util/dsa/VendorLinkedList.java) and its node
 * (util/dsa/VendorNode.java). The ghost sequence `nodes` lists the nodes reachable from `head`,
 * in order; `Contents()` is the vendors they hold.
 */
module VendorList {
  import opened Wrappers
  import opened Seqs
  import opened VendorModel

  class VendorNode {
    var vendor: VendorRecord
    var next: VendorNode?

    constructor (vendor: VendorRecord)
      ensures this.vendor == vendor && next == null
    {
      this.vendor := vendor;
      next := null;
    }
  }

  /** `ns` is the chain of distinct nodes that starts at `head` and ends in a `null` link. */
  ghost predicate Linked(head: VendorNode?, ns: seq<VendorNode>)
    reads (set n | n in ns)`next
  {
    && (head == null <==> ns == [])
    && (ns != [] ==> head == ns[0] && ns[|ns| - 1].next == null)
    && (forall i {:trigger ns[i].next} :: 0 <= i < |ns| - 1 ==> ns[i].next == ns[i + 1])
    && Distinct(ns)
  }

  ghost predicate Distinct(ns: seq<VendorNode>) {
    forall i, j :: 0 <= i < j < |ns| ==> ns[i] != ns[j]
  }

  /** Where the link of the node at position `i` leads. */
  lemma NextOf(head: VendorNode?, ns: seq<VendorNode>, i: int)
    requires Linked(head, ns) && 0 <= i < |ns|
    ensures ns[i].next == if i + 1 < |ns| then ns[i + 1] else null
  {
  }

  /** Dropping the first node leaves the chain that starts at its successor. */
  lemma LinkedTail(head: VendorNode?, ns: seq<VendorNode>)
    requires Linked(head, ns) && ns != []
    ensures Linked(ns[0].next, ns[1..])
  {
    NextOf(head, ns, 0);
  }

  /** Bypasses the node after `node`, the node at position `i`: one `next` write. */
  method Bypass(ghost head: VendorNode?, ghost ns: seq<VendorNode>, ghost i: int, node: VendorNode)
    requires Linked(head, ns) && 0 <= i && i + 1 < |ns| && node == ns[i]
    modifies node`next
    ensures Linked(head, ns[..i + 1] + ns[i + 2..])
    ensures Payloads(ns) == old(Payloads(ns))
  {
    NextOf(head, ns, i);
    NextOf(head, ns, i + 1);
    node.next := node.next.next;
    var rest := ns[..i + 1] + ns[i + 2..];
    assert forall j :: 0 <= j < |rest| ==> rest[j] == if j <= i then ns[j] else ns[j + 1];
    assert forall j :: 0 <= j < |ns| ==> Payloads(ns)[j] == old(Payloads(ns))[j];
  }

  /** The vendors held by the nodes `ns`, in order. */
  ghost function Payloads(ns: seq<VendorNode>): (r: seq<VendorRecord>)
    reads ns
  {
    seq(|ns|, i requires 0 <= i < |ns| reads ns => ns[i].vendor)
  }

  lemma PayloadsRemove(ns: seq<VendorNode>, k: int)
    requires 0 <= k < |ns|
    ensures Payloads(ns[..k] + ns[k + 1..]) == Payloads(ns)[..k] + Payloads(ns)[k + 1..]
  {
    var rest := ns[..k] + ns[k + 1..];
    var p := Payloads(ns);
    var a, b := Payloads(rest), p[..k] + p[k + 1..];
    forall j | 0 <= j < |a| ensures a[j] == b[j] {
      if j < k {
        assert rest[j] == ns[j];
      } else {
        assert rest[j] == ns[j + 1];
      }
    }
  }

  lemma PayloadsTail(ns: seq<VendorNode>)
    requires ns != []
    ensures Payloads(ns[1..]) == Payloads(ns)[1..]
  {
  }

  class VendorLinkedList {
    var head: VendorNode?
    var size: int
    ghost var nodes: seq<VendorNode>

    /** `size` counts exactly the nodes reachable from `head`. */
    ghost predicate Valid()
      reads this, (set n | n in nodes)`next
    {
      Linked(head, nodes) && size == |nodes|
    }

    ghost function Contents(): seq<VendorRecord>
      reads this, nodes
    {
      Payloads(nodes)
    }

    constructor ()
      ensures Valid() && Contents() == []
      ensures head == null && size == 0
    {
      head := null;
      size := 0;
      nodes := [];
    }

    method GetHead() returns (h: VendorNode?)
      requires Valid()
      ensures h == null <==> Contents() == []
      ensures h != null ==> h == nodes[0] && h.vendor == Contents()[0]
    {
      h := head;
    }

    method GetSize() returns (n: int)
      requires Valid()
      ensures n == |Contents()|
    {
      n := size;
    }

    /** Walks to the last node and links a new node holding `vendor` behind it. */
    method AddVendor(vendor: VendorRecord)
      requires Valid()
      modifies this, (set n | n in nodes)`next
      ensures Valid()
      ensures Contents() == old(Contents()) + [vendor]
      ensures size == old(size) + 1
      ensures nodes[..|nodes| - 1] == old(nodes) && fresh(nodes[|nodes| - 1])
    {
      var newNode := new VendorNode(vendor);
      if head == null {
        head := newNode;
      } else {
        var current := head;
        ghost var i := 0;
        while current.next != null
          invariant nodes == old(nodes) && head == old(head) && size == old(size)
          invariant Valid() && 0 <= i < |nodes| && current == nodes[i]
          decreases |nodes| - i
        {
          current := current.next;
          i := i + 1;
        }
        NextOf(head, nodes, i);
        current.next := newNode;
      }
      nodes := nodes + [newNode];
      size := size + 1;
    }

    /** Unlinks the first node whose vendor has id `vendorId`; nothing happens when there is none. */
    method RemoveVendor(vendorId: string)
      requires Valid()
      modifies this, (set n | n in nodes)`next
      ensures Valid()
      ensures Contents() == RemoveFirst(old(Contents()), IdIs(vendorId))
    {
      ghost var c := Contents();
      if head == null {
        return;
      }
      if head.vendor.id == vendorId {
        RemoveFirstAt(c, IdIs(vendorId), 0);
        RemoveHead();
        return;
      }
      var current;
      ghost var i;
      current, i := Predecessor(vendorId);
      assert c == Contents();
      NextOf(head, nodes, i);
      assert i + 1 < |nodes| ==> c[i + 1] == nodes[i + 1].vendor;
      if current.next != null {
        RemoveFirstAt(c, IdIs(vendorId), i + 1);
        UnlinkAfter(current, i);
      } else {
        RemoveFirstNone(c, IdIs(vendorId));
      }
    }

    /**
     * The search loop of `RemoveVendor`: the last node, or the node before the first one after
     * `head` whose vendor has id `vendorId`.
     */
    method Predecessor(vendorId: string) returns (current: VendorNode, ghost i: int)
      requires Valid() && head != null && head.vendor.id != vendorId
      ensures 0 <= i < |nodes| && current == nodes[i]
      ensures forall j :: 0 <= j <= i ==> !IdIs(vendorId)(Contents()[j])
      ensures current.next == null || current.next.vendor.id == vendorId
    {
      NextOf(head, nodes, 0);
      current := head;
      i := 0;
      while current.next != null && current.next.vendor.id != vendorId
        invariant 0 <= i < |nodes| && current == nodes[i]
        invariant forall j :: 0 <= j <= i ==> !IdIs(vendorId)(Contents()[j])
        decreases |nodes| - i
      {
        NextOf(head, nodes, i);
        current := current.next;
        i := i + 1;
      }
    }

    /** The first branch of `RemoveVendor`: `head` moves to its successor. */
    method RemoveHead()
      requires Valid() && head != null
      modifies this
      ensures Valid()
      ensures Contents() == old(Contents()[1..])
    {
      ghost var ns := nodes;
      LinkedTail(head, ns);
      PayloadsTail(ns);
      head := head.next;
      size := size - 1;
      nodes := ns[1..];
    }

    /** The unlinking step of `RemoveVendor`: `current`, at position `i`, skips over its successor. */
    method UnlinkAfter(current: VendorNode, ghost i: int)
      requires Valid() && 0 <= i && i + 1 < |nodes| && current == nodes[i]
      modifies this, (set n | n in nodes)`next
      ensures Valid()
      ensures Contents() == old(Contents()[..i + 1] + Contents()[i + 2..])
    {
      ghost var ns := nodes;
      Bypass(head, ns, i, current);
      PayloadsRemove(ns, i + 1);
      size := size - 1;
      nodes := ns[..i + 1] + ns[i + 2..];
    }

    /** A linear scan from `head`: the vendor of the first node with that id, or `None` (Java's `null`). */
    method GetVendorById(vendorId: string) returns (r: Option<VendorRecord>)
      requires Valid()
      ensures r == FindFirst(Contents(), IdIs(vendorId))
    {
      ghost var c := Contents();
      var current := head;
      ghost var i := 0;
      while current != null
        invariant 0 <= i <= |nodes|
        invariant current == if i < |nodes| then nodes[i] else null
        invariant FindFirst(c[i..], IdIs(vendorId)) == FindFirst(c, IdIs(vendorId))
        decreases |nodes| - i
      {
        assert c[i] == current.vendor;
        if current.vendor.id == vendorId {
          return Some(current.vendor);
        }
        assert c[i..][1..] == c[i + 1..];
        NextOf(head, nodes, i);
        current := current.next;
        i := i + 1;
      }
      return None;
    }

    /** The vendors in list order, in a new array of length `size`. */
    method ToArray() returns (a: array<VendorRecord>)
      requires Valid()
      ensures fresh(a) && a.Length == size
      ensures a[..] == Contents()
    {
      a := new VendorRecord[size];
      var current := head;
      var index := 0;
      while current != null
        invariant 0 <= index <= |nodes|
        invariant current == if index < |nodes| then nodes[index] else null
        invariant a[..index] == Contents()[..index]
        decreases |nodes| - index
      {
        a[index] := current.vendor;
        NextOf(head, nodes, index);
        current := current.next;
        index := index + 1;
      }
    }
  }

  /** Removal by id takes out at most one vendor: the first match, and only it. */
  lemma RemoveVendorDropsOne(c: seq<VendorRecord>, vendorId: string, k: nat)
    requires IsFirstMatch(c, IdIs(vendorId), k)
    ensures |RemoveFirst(c, IdIs(vendorId))| == |c| - 1
    ensures multiset(RemoveFirst(c, IdIs(vendorId))) == multiset(c) - multiset{c[k]}
    ensures forall j :: k < j < |c| ==> c[j] in RemoveFirst(c, IdIs(vendorId))
  {
    var r := RemoveFirst(c, IdIs(vendorId));
    RemoveFirstAt(c, IdIs(vendorId), k);
    assert c == c[..k] + [c[k]] + c[k + 1..];
    assert r == c[..k] + c[k + 1..];
    forall j | k < j < |c| ensures c[j] in r {
      assert c[j] == c[k + 1..][j - k - 1];
    }
  }
}
