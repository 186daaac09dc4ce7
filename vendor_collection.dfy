/**
 * The list-backed vendor collection (model/VendorCollection.java): the same abstract data type
 * as the hand-written linked list, kept in a list field. Its queries are stream pipelines that
 * build new lists and leave the collection alone.
 */
module VendorCollections {
  import opened Wrappers
  import opened Seqs
  import opened Sorting
  import opened VendorModel

  /** The `removeIf` test of `removeVendor`, negated: the vendors that stay. */
  function IdIsNot(id: string): VendorRecord -> bool {
    (v: VendorRecord) => v.id != id
  }

  class VendorCollection {
    var vendors: seq<VendorRecord>

    constructor ()
      ensures vendors == []
    {
      vendors := [];
    }

    method AddVendor(vendor: VendorRecord)
      modifies this
      ensures vendors == old(vendors) + [vendor]
    {
      vendors := vendors + [vendor];
    }

    /** `removeIf`: drops every vendor with that id, not just the first. */
    method RemoveVendor(vendorId: string)
      modifies this
      ensures vendors == Filter(old(vendors), IdIsNot(vendorId))
    {
      vendors := Filter(vendors, IdIsNot(vendorId));
    }

    /** `filter(...).findFirst().orElse(null)`: the first vendor with that id, or `None`. */
    function FindVendorById(vendorId: string): (r: Option<VendorRecord>)
      reads this
      ensures r.None? <==> forall i :: 0 <= i < |vendors| ==> vendors[i].id != vendorId
      ensures forall k :: IsFirstMatch(vendors, IdIs(vendorId), k) ==> r == Some(vendors[k])
    {
      FindFirstAtAny(vendors, IdIs(vendorId));
      FindFirst(vendors, IdIs(vendorId))
    }

    /** The vendors that satisfy the predicate `keep`, in collection order. */
    function FilterVendors(keep: VendorRecord -> bool): (r: seq<VendorRecord>)
      reads this
      ensures IsSubseq(r, vendors)
      ensures forall v :: v in r <==> v in vendors && keep(v)
      ensures forall v :: multiset(r)[v] == if keep(v) then multiset(vendors)[v] else 0
    {
      FilterIsSubseq(vendors, keep);
      FilterMembersAll(vendors, keep);
      FilterCountAll(vendors, keep);
      Filter(vendors, keep)
    }

    /** A new list, highest rating first; `sorted` is stable, so ties keep collection order. */
    function SortByRatingDescending(): (r: seq<VendorRecord>)
      reads this
      ensures multiset(r) == multiset(vendors)
      ensures forall i, j :: 0 <= i < j < |r| ==> r[i].rating >= r[j].rating
      ensures forall rating :: Filter(r, HasRating(rating)) == Filter(vendors, HasRating(rating))
    {
      VendorModel.SortByRatingDescending(vendors)
    }

    /**
     * `sorted(comparator)`, with `le(x, y)` standing for `compare(x, y) <= 0`. The comparator
     * must be a total preorder, as `Comparator` demands; the result is then its stable sort.
     */
    function SortVendors(le: (VendorRecord, VendorRecord) -> bool): (r: seq<VendorRecord>)
      requires TotalPreorderOn(Elements(vendors), le)
      reads this
      ensures IsStableSort(r, vendors, le, Elements(vendors))
    {
      MergeSortIsStableSort(vendors, le, Elements(vendors));
      MergeSort(vendors, le)
    }

    /** `new ArrayList<>(vendors)`: a copy, which as a value shares nothing with the collection. */
    method GetAllVendors() returns (r: seq<VendorRecord>)
      ensures r == vendors
    {
      r := vendors;
    }

    method GetSize() returns (n: int)
      ensures n == |vendors|
    {
      n := |vendors|;
    }

    method Clear()
      modifies this
      ensures vendors == []
    {
      vendors := [];
    }
  }

  /**
   * After `removeVendor(id)` no vendor with that id is left and every other vendor keeps all
   * of its occurrences, in order; a later lookup of the id finds nothing.
   */
  lemma RemoveVendorRemovesAll(vs: seq<VendorRecord>, id: string)
    ensures forall v: VendorRecord :: v in Filter(vs, IdIsNot(id)) <==> v in vs && v.id != id
    ensures forall v: VendorRecord :: v.id != id ==> multiset(Filter(vs, IdIsNot(id)))[v] == multiset(vs)[v]
    ensures IsSubseq(Filter(vs, IdIsNot(id)), vs)
    ensures FindFirst(Filter(vs, IdIsNot(id)), IdIs(id)) == None
  {
    FilterMembersAll(vs, IdIsNot(id));
    forall v: VendorRecord | v.id != id ensures multiset(Filter(vs, IdIsNot(id)))[v] == multiset(vs)[v] {
      FilterCount(vs, IdIsNot(id), v);
    }
    FilterIsSubseq(vs, IdIsNot(id));
  }

  /** A vendor added under a fresh id is what a lookup of that id finds. */
  lemma AddThenFind(vs: seq<VendorRecord>, v: VendorRecord)
    requires forall i :: 0 <= i < |vs| ==> vs[i].id != v.id
    ensures FindFirst(vs + [v], IdIs(v.id)) == Some(v)
  {
    assert IsFirstMatch(vs + [v], IdIs(v.id), |vs|);
    FindFirstAt(vs + [v], IdIs(v.id), |vs|);
  }

  /** Filtering twice by the same predicate is filtering once. */
  lemma FilterVendorsIdempotent(vs: seq<VendorRecord>, p: VendorRecord -> bool)
    ensures Filter(Filter(vs, p), p) == Filter(vs, p)
  {
    FilterKeepsAll(Filter(vs, p), p);
  }

  /** Any stable sort by a total preorder is the one `sortVendors` returns. */
  lemma SortVendorsIsUnique(vs: seq<VendorRecord>, le: (VendorRecord, VendorRecord) -> bool, r: seq<VendorRecord>)
    requires TotalPreorderOn(Elements(vs), le)
    requires IsStableSort(r, vs, le, Elements(vs))
    ensures r == MergeSort(vs, le)
  {
    var u := Elements(vs);
    var s := MergeSort(vs, le);
    MergeSortIsStableSort(vs, le, u);
    forall i | 0 <= i < |r| ensures r[i] in u { assert r[i] in multiset(vs); }
    forall i | 0 <= i < |s| ensures s[i] in u { assert s[i] in multiset(vs); }
    StableSortsAgree(r, s, le, u);
  }
}
