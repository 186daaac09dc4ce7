/**
 * The vendor entity (model/Vendor.java): the value the collections, sorts and services work
 * on, the "highest rating first" order they share, and the mutable vendor profile with its
 * approval status, portfolio images and social-media links.
 */
module VendorModel {
  import opened Wrappers
  import opened Seqs
  import opened Sorting

  /** Only the two constants the pricing rule tests are named; every other constant is `OtherType`. */
  datatype VendorType = Photography | Catering | OtherType(name: string)

  datatype SocialMediaPlatform =
    Facebook | Instagram | Pinterest | Twitter | LinkedIn | YouTube | TikTok | Website

  /**
   * What a collection, a sort or a search reads of a vendor. `name` comes from the user
   * account; `None` stands for a Java `null`.
   */
  datatype VendorRecord = VendorRecord(
    id: string,
    name: Option<string>,
    businessName: Option<string>,
    vendorType: Option<VendorType>,
    rating: real,
    basePrice: real,
    availability: Option<seq<string>>)

  /** The test `vendor.getId().equals(id)`. */
  function IdIs(id: string): VendorRecord -> bool {
    (v: VendorRecord) => v.id == id
  }

  /** `Comparator.comparing(Vendor::getRating).reversed()`: `x` may come before `y`. */
  function RatingGe(x: VendorRecord, y: VendorRecord): bool {
    x.rating >= y.rating
  }

  function HasRating(rating: real): VendorRecord -> bool {
    (v: VendorRecord) => v.rating == rating
  }

  ghost function Elements(vs: seq<VendorRecord>): set<VendorRecord> {
    set v | v in vs
  }

  lemma RatingGeIsTotalPreorder(u: set<VendorRecord>)
    ensures TotalPreorderOn(u, RatingGe)
  {
  }

  /** The class `EquivTo(RatingGe, c)` is the set of vendors rated exactly like `c`. */
  lemma RatingClass(x: seq<VendorRecord>, c: VendorRecord)
    ensures Filter(x, EquivTo(RatingGe, c)) == Filter(x, HasRating(c.rating))
  {
    forall i | 0 <= i < |x|
      ensures EquivTo(RatingGe, c)(x[i]) == HasRating(c.rating)(x[i])
    {
      assert EquivTo(RatingGe, c)(x[i]) == (RatingGe(x[i], c) && RatingGe(c, x[i]));
    }
    FilterExtensional(x, EquivTo(RatingGe, c), HasRating(c.rating));
  }

  /** For a stable sort by `RatingGe`, "same classes" means "same order among equal ratings". */
  lemma SameClassesByRating(r: seq<VendorRecord>, vs: seq<VendorRecord>, rating: real)
    requires multiset(r) == multiset(vs)
    requires SameClasses(r, vs, RatingGe, Elements(vs))
    ensures Filter(r, HasRating(rating)) == Filter(vs, HasRating(rating))
  {
    if c :| c in vs && c.rating == rating {
      RatingClass(r, c);
      RatingClass(vs, c);
      assert c in Elements(vs);
    } else {
      forall i | 0 <= i < |r| ensures !HasRating(rating)(r[i]) {
        assert r[i] in multiset(vs);
      }
      forall i | 0 <= i < |vs| ensures !HasRating(rating)(vs[i]) {
        assert vs[i] in vs;
      }
      FilterDropsAll(r, HasRating(rating));
      FilterDropsAll(vs, HasRating(rating));
    }
  }

  /**
   * The vendors ordered by rating, highest first, equal ratings kept in their original
   * order (Java's `sorted` is stable; by `StableSortsAgree` every stable sort gives this).
   */
  function SortByRatingDescending(vs: seq<VendorRecord>): (r: seq<VendorRecord>)
    ensures multiset(r) == multiset(vs)
    ensures forall i, j :: 0 <= i < j < |r| ==> r[i].rating >= r[j].rating
    ensures forall rating :: Filter(r, HasRating(rating)) == Filter(vs, HasRating(rating))
  {
    var r := MergeSort(vs, RatingGe);
    RatingGeIsTotalPreorder(Elements(vs));
    MergeSortIsStableSort(vs, RatingGe, Elements(vs));
    assert forall rating :: Filter(r, HasRating(rating)) == Filter(vs, HasRating(rating)) by {
      forall rating: real ensures Filter(r, HasRating(rating)) == Filter(vs, HasRating(rating)) {
        SameClassesByRating(r, vs, rating);
      }
    }
    r
  }

  /** Any ordering that is a permutation, highest rating first, and stable on ties is this one. */
  lemma {:induction false} RatingSortIsUnique(vs: seq<VendorRecord>, r: seq<VendorRecord>)
    requires multiset(r) == multiset(vs)
    requires forall i, j :: 0 <= i < j < |r| ==> r[i].rating >= r[j].rating
    requires forall rating :: Filter(r, HasRating(rating)) == Filter(vs, HasRating(rating))
    ensures r == SortByRatingDescending(vs)
  {
    var s := SortByRatingDescending(vs);
    var u := Elements(vs);
    RatingGeIsTotalPreorder(u);
    forall c | c in u
      ensures Filter(r, EquivTo(RatingGe, c)) == Filter(s, EquivTo(RatingGe, c))
    {
      RatingClass(r, c);
      RatingClass(s, c);
    }
    forall i | 0 <= i < |r| ensures r[i] in u { assert r[i] in multiset(vs); }
    forall i | 0 <= i < |s| ensures s[i] in u { assert s[i] in multiset(vs); }
    StableSortsAgree(r, s, RatingGe, u);
  }

  // ---------------------------------------------------------------------------
  // Approval status: the strings "PENDING", "APPROVED", "REJECTED"

  const PENDING := "PENDING"
  const APPROVED := "APPROVED"
  const REJECTED := "REJECTED"

  predicate KnownStatus(s: string) {
    s == PENDING || s == APPROVED || s == REJECTED
  }

  /** The status after `setApproved(approved)`. */
  function AfterSetApproved(status: string, approved: bool): (r: string)
    ensures approved ==> r == APPROVED
    ensures !approved ==> r != APPROVED && (status != APPROVED ==> r == status)
    ensures !approved && status == APPROVED ==> r == PENDING
  {
    if approved then APPROVED else if status == APPROVED then PENDING else status
  }

  /** The status after `setRejected(rejected)`. */
  function AfterSetRejected(status: string, rejected: bool): (r: string)
    ensures rejected ==> r == REJECTED
    ensures !rejected ==> r != REJECTED && (status != REJECTED ==> r == status)
    ensures !rejected && status == REJECTED ==> r == PENDING
  {
    if rejected then REJECTED else if status == REJECTED then PENDING else status
  }

  /** The setters never leave the three known statuses. */
  lemma StatusSettersKeepKnown(status: string, flag: bool)
    requires KnownStatus(status)
    ensures KnownStatus(AfterSetApproved(status, flag)) && KnownStatus(AfterSetRejected(status, flag))
  {
  }

  /** The rejection sequence `setApproved(false); setRejected(true)` ends in REJECTED from any status. */
  lemma RejectionSequence(status: string)
    ensures AfterSetRejected(AfterSetApproved(status, false), true) == REJECTED
  {
  }

  /**
   * Approving and then withdrawing the approval always ends in PENDING: a vendor that was
   * REJECTED before does not get that status back.
   */
  lemma ApproveThenWithdraw(status: string)
    ensures AfterSetApproved(AfterSetApproved(status, true), false) == PENDING
    ensures status == REJECTED ==> AfterSetApproved(AfterSetApproved(status, true), false) != status
  {
  }

  /** Rejecting and then withdrawing the rejection always ends in PENDING, even for an APPROVED vendor. */
  lemma RejectThenWithdraw(status: string)
    ensures AfterSetRejected(AfterSetRejected(status, true), false) == PENDING
    ensures status == APPROVED ==> AfterSetRejected(AfterSetRejected(status, true), false) != status
  {
  }

  /** Calling either setter twice with the same flag is calling it once. */
  lemma StatusSettersIdempotent(status: string, flag: bool)
    ensures AfterSetApproved(AfterSetApproved(status, flag), flag) == AfterSetApproved(status, flag)
    ensures AfterSetRejected(AfterSetRejected(status, flag), flag) == AfterSetRejected(status, flag)
  {
  }

  // ---------------------------------------------------------------------------

  /** The vendor profile whose setters update it in place. */
  class Vendor {
    var vendorType: Option<VendorType>
    var businessName: Option<string>
    var rating: real
    var availability: Option<seq<string>>
    var status: string
    var imageUrls: Option<seq<string>>
    var basePrice: real
    var address: string
    var serviceRadius: Option<real>
    var socialMediaLinks: Option<map<SocialMediaPlatform, string>>

    constructor ()
      ensures status == PENDING && rating == 0.0 && basePrice == 0.0 && address == ""
      ensures availability == Some([]) && imageUrls == Some([]) && socialMediaLinks == Some(map[])
      ensures vendorType == None && businessName == None && serviceRadius == None
    {
      vendorType := None;
      businessName := None;
      rating := 0.0;
      availability := Some([]);
      status := PENDING;
      imageUrls := Some([]);
      basePrice := 0.0;
      address := "";
      serviceRadius := None;
      socialMediaLinks := Some(map[]);
    }

    predicate IsApproved()
      reads this
    {
      status == APPROVED
    }

    predicate IsRejected()
      reads this
    {
      status == REJECTED
    }

    /** A vendor is never both approved and rejected. */
    lemma ApprovedAndRejectedExclusive()
      ensures !(IsApproved() && IsRejected())
    {
    }

    method SetApproved(approved: bool)
      modifies this`status
      ensures status == AfterSetApproved(old(status), approved)
      ensures IsApproved() <==> approved
    {
      if approved {
        status := APPROVED;
      } else if status == APPROVED {
        status := PENDING;
      }
    }

    method SetRejected(rejected: bool)
      modifies this`status
      ensures status == AfterSetRejected(old(status), rejected)
      ensures IsRejected() <==> rejected
    {
      if rejected {
        status := REJECTED;
      } else if status == REJECTED {
        status := PENDING;
      }
    }

    /** Appends, creating the list first when it is null. */
    method AddImageUrl(url: string)
      modifies this`imageUrls
      ensures imageUrls == Some(old(imageUrls).GetOr([]) + [url])
    {
      if imageUrls.None? {
        imageUrls := Some([]);
      }
      imageUrls := Some(imageUrls.value + [url]);
    }

    /** `List.remove(Object)`: drops the first equal URL only; nothing happens to a null list. */
    method RemoveImageUrl(url: string)
      modifies this`imageUrls
      ensures old(imageUrls).None? ==> imageUrls == None
      ensures old(imageUrls).Some? ==> imageUrls == Some(RemoveFirst(old(imageUrls).value, EqualTo(url)))
    {
      if imageUrls.Some? {
        imageUrls := Some(RemoveFirst(imageUrls.value, EqualTo(url)));
      }
    }

    /** `Map.put`: sets or overwrites the link of one platform, creating the map when it is null. */
    method AddSocialMediaLink(platform: SocialMediaPlatform, link: string)
      modifies this`socialMediaLinks
      ensures socialMediaLinks == Some(old(socialMediaLinks).GetOr(map[])[platform := link])
      ensures forall p :: p != platform && old(socialMediaLinks).Some? && p in old(socialMediaLinks).value ==>
                p in socialMediaLinks.value && socialMediaLinks.value[p] == old(socialMediaLinks).value[p]
    {
      if socialMediaLinks.None? {
        socialMediaLinks := Some(map[]);
      }
      socialMediaLinks := Some(socialMediaLinks.value[platform := link]);
    }

    /** `Map.remove`: deletes one platform's link; nothing happens to a null map. */
    method RemoveSocialMediaLink(platform: SocialMediaPlatform)
      modifies this`socialMediaLinks
      ensures old(socialMediaLinks).None? ==> socialMediaLinks == None
      ensures old(socialMediaLinks).Some? ==> socialMediaLinks == Some(old(socialMediaLinks).value - {platform})
    {
      if socialMediaLinks.Some? {
        socialMediaLinks := Some(socialMediaLinks.value - {platform});
      }
    }
  }

  function EqualTo(x: string): string -> bool {
    (y: string) => y == x
  }

  /** Removing a URL drops exactly its first occurrence and keeps the rest in order. */
  lemma RemoveImageUrlDropsFirst(urls: seq<string>, url: string, k: nat)
    requires k < |urls| && urls[k] == url && forall j :: 0 <= j < k ==> urls[j] != url
    ensures RemoveFirst(urls, EqualTo(url)) == urls[..k] + urls[k + 1..]
    ensures multiset(RemoveFirst(urls, EqualTo(url)))[url] == multiset(urls)[url] - 1
  {
    assert IsFirstMatch(urls, EqualTo(url), k);
    RemoveFirstAt(urls, EqualTo(url), k);
    MultisetRemoveAt(urls, k);
  }

  lemma RemoveAbsentImageUrl(urls: seq<string>, url: string)
    requires url !in urls
    ensures RemoveFirst(urls, EqualTo(url)) == urls
  {
    RemoveFirstNone(urls, EqualTo(url));
  }
}
