/**
 * Reviews and the vendor rating they determine (service/ReviewService.java). The review and
 * vendor repositories are the sequences `reviews` and `vendors`, read and written as
 * ReviewRepository.java and VendorRepository.java do: `save` appends, `update` removes by id
 * and appends, `delete` removes by id, and `findById` and `findByVendorId` filter.
 */
module Reviews {
  import opened Wrappers
  import opened Seqs
  import opened Tasks
  import opened VendorModel

  datatype Review = Review(
    reviewId: Option<string>,
    vendorId: string,
    coupleId: Option<string>,
    bookingId: Option<string>,
    rating: int,
    comment: Option<string>,
    reviewDate: Option<Date>,
    isVerified: bool)

  /** `r.getReviewId().equals(id)`; a stored review without an id matches nothing. */
  function ReviewIdIs(id: Option<string>): Review -> bool {
    (r: Review) => r.reviewId.Some? && r.reviewId == id
  }

  function ReviewIdIsNot(id: Option<string>): Review -> bool {
    (r: Review) => !ReviewIdIs(id)(r)
  }

  /** The test of `findByVendorId`. */
  function ForVendor(vendorId: string): Review -> bool {
    (r: Review) => r.vendorId == vendorId
  }

  /** The sum of the ratings, the value the loop of `updateVendorRating` accumulates. */
  function RatingSum(rs: seq<Review>): int {
    if rs == [] then 0 else RatingSum(rs[..|rs| - 1]) + rs[|rs| - 1].rating
  }

  /** The arithmetic mean of the ratings. */
  function Mean(rs: seq<Review>): real
    requires rs != []
  {
    RatingSum(rs) as real / |rs| as real
  }

  /**
   * The vendor store after `updateVendorRating(vendorId)`: with no review of the vendor, or no
   * vendor of that id, it is unchanged; otherwise the first vendor of that id is taken out and
   * re-added at the end with the mean rating of its reviews.
   */
  function Rerated(vendors: seq<VendorRecord>, reviews: seq<Review>, vendorId: string): seq<VendorRecord> {
    var mine := Filter(reviews, ForVendor(vendorId));
    if mine == [] then vendors
    else match FindFirst(vendors, IdIs(vendorId))
      case None => vendors
      case Some(v) => RemoveFirst(vendors, IdIs(vendorId)) + [v.(rating := Mean(mine))]
  }

  /**
   * The review `createReview` stores: it keeps a given non-empty id and a given date, and
   * fills in `freshId` and `now` (the random UUID and the current time) otherwise.
   */
  function WithDefaults(review: Review, freshId: string, now: Date): (r: Review)
    ensures r.reviewId.Some? && r.reviewDate.Some?
    ensures review.reviewId.Some? && review.reviewId.value != "" ==> r.reviewId == review.reviewId
    ensures review.reviewId.None? || review.reviewId == Some("") ==> r.reviewId == Some(freshId)
    ensures review.reviewDate.Some? ==> r.reviewDate == review.reviewDate
    ensures review.reviewDate.None? ==> r.reviewDate == Some(now)
    ensures r.(reviewId := review.reviewId, reviewDate := review.reviewDate) == review
  {
    var withId := if review.reviewId.None? || review.reviewId == Some("") then review.(reviewId := Some(freshId)) else review;
    if withId.reviewDate.None? then withId.(reviewDate := Some(now)) else withId
  }

  /** The accumulation loop of `updateVendorRating`. */
  method TotalRating(vendorReviews: seq<Review>) returns (totalRating: int)
    ensures totalRating == RatingSum(vendorReviews)
  {
    totalRating := 0;
    for k := 0 to |vendorReviews|
      invariant totalRating == RatingSum(vendorReviews[..k])
    {
      assert vendorReviews[..k + 1][..k] == vendorReviews[..k];
      totalRating := totalRating + vendorReviews[k].rating;
    }
    assert vendorReviews[..|vendorReviews|] == vendorReviews;
  }

  class ReviewService {
    var reviews: seq<Review>
    var vendors: seq<VendorRecord>

    constructor (reviews: seq<Review>, vendors: seq<VendorRecord>)
      ensures this.reviews == reviews && this.vendors == vendors
    {
      this.reviews := reviews;
      this.vendors := vendors;
    }

    /** Recomputes the vendor's rating from its reviews; the reviews are left alone. */
    method UpdateVendorRating(vendorId: string)
      modifies this
      ensures reviews == old(reviews)
      ensures vendors == Rerated(old(vendors), reviews, vendorId)
    {
      var vendorReviews := Filter(reviews, ForVendor(vendorId));
      if vendorReviews == [] {
        return;
      }
      var totalRating := TotalRating(vendorReviews);
      var averageRating := totalRating as real / |vendorReviews| as real;
      var vendor := FindFirst(vendors, IdIs(vendorId));
      if vendor.Some? {
        var rated := vendor.value.(rating := averageRating);
        vendors := RemoveFirst(vendors, IdIs(vendorId)) + [rated];
      }
    }

    /** Stores the review, with its defaults filled in, and recomputes its vendor's rating. */
    method CreateReview(review: Review, freshId: string, now: Date) returns (r: Review)
      modifies this
      ensures r == WithDefaults(review, freshId, now)
      ensures reviews == old(reviews) + [r]
      ensures vendors == Rerated(old(vendors), reviews, r.vendorId)
    {
      r := review;
      if r.reviewId.None? || r.reviewId == Some("") {
        r := r.(reviewId := Some(freshId));
      }
      if r.reviewDate.None? {
        r := r.(reviewDate := Some(now));
      }
      reviews := reviews + [r];
      UpdateVendorRating(r.vendorId);
    }

    /** Replaces every stored review of the same id by this one, at the end, and re-rates its vendor. */
    method UpdateReview(review: Review)
      modifies this
      ensures reviews == Filter(old(reviews), ReviewIdIsNot(review.reviewId)) + [review]
      ensures vendors == Rerated(old(vendors), reviews, review.vendorId)
    {
      reviews := Filter(reviews, ReviewIdIsNot(review.reviewId)) + [review];
      UpdateVendorRating(review.vendorId);
    }

    /**
     * Removes the reviews of that id and re-rates the vendor of the first of them; an unknown
     * id changes nothing.
     */
    method DeleteReview(reviewId: string)
      modifies this
      ensures FindFirst(old(reviews), ReviewIdIs(Some(reviewId))).None? ==>
        reviews == old(reviews) && vendors == old(vendors)
      ensures FindFirst(old(reviews), ReviewIdIs(Some(reviewId))).Some? ==>
        reviews == Filter(old(reviews), ReviewIdIsNot(Some(reviewId))) &&
        vendors == Rerated(old(vendors), reviews, FindFirst(old(reviews), ReviewIdIs(Some(reviewId))).value.vendorId)
    {
      var review := FindFirst(reviews, ReviewIdIs(Some(reviewId)));
      if review.Some? {
        var vendorId := review.value.vendorId;
        reviews := Filter(reviews, ReviewIdIsNot(Some(reviewId)));
        UpdateVendorRating(vendorId);
      }
    }
  }

  /** Ratings between `lo` and `hi` sum to between `lo` and `hi` times their number. */
  lemma {:induction false} RatingSumBounds(rs: seq<Review>, lo: int, hi: int)
    requires forall i :: 0 <= i < |rs| ==> lo <= rs[i].rating <= hi
    ensures lo * |rs| <= RatingSum(rs) <= hi * |rs|
  {
    if rs != [] {
      RatingSumBounds(rs[..|rs| - 1], lo, hi);
    }
  }

  /** The mean of ratings between `lo` and `hi` lies between them: 1-to-5 ratings give a 1-to-5 average. */
  lemma MeanBounds(rs: seq<Review>, lo: int, hi: int)
    requires rs != []
    requires forall i :: 0 <= i < |rs| ==> lo <= rs[i].rating <= hi
    ensures lo as real <= Mean(rs) <= hi as real
  {
    RatingSumBounds(rs, lo, hi);
    var n := |rs| as real;
    CastProduct(lo, |rs|);
    CastProduct(hi, |rs|);
    QuotientBounds(RatingSum(rs) as real, n, lo as real, hi as real);
  }

  lemma CastProduct(a: int, b: int)
    ensures (a * b) as real == a as real * b as real
  {
  }

  /** Division by a positive number keeps bounds that hold for the multiples. */
  lemma QuotientBounds(s: real, n: real, lo: real, hi: real)
    requires n > 0.0 && lo * n <= s <= hi * n
    ensures lo <= s / n <= hi
  {
  }

  /** No review of the vendor (for instance after its last one is deleted): its rating stays as it was. */
  lemma NoReviewsKeepRating(vendors: seq<VendorRecord>, reviews: seq<Review>, vendorId: string)
    requires forall i :: 0 <= i < |reviews| ==> reviews[i].vendorId != vendorId
    ensures Rerated(vendors, reviews, vendorId) == vendors
  {
    FilterDropsAll(reviews, ForVendor(vendorId));
  }

  /** An unknown vendor id updates no vendor. */
  lemma UnknownVendorUnchanged(vendors: seq<VendorRecord>, reviews: seq<Review>, vendorId: string)
    requires forall i :: 0 <= i < |vendors| ==> vendors[i].id != vendorId
    ensures Rerated(vendors, reviews, vendorId) == vendors
  {
  }

  /**
   * With reviews of the vendor and exactly one vendor of that id at position `k`, the updated
   * store holds every other vendor as before (in order) and, at the end, that vendor with the
   * mean rating of its reviews, which is what a later lookup of the id finds.
   */
  lemma ReratedSetsMean(vendors: seq<VendorRecord>, reviews: seq<Review>, vendorId: string, k: int)
    requires Filter(reviews, ForVendor(vendorId)) != []
    requires 0 <= k < |vendors| && vendors[k].id == vendorId
    requires forall j :: 0 <= j < |vendors| && vendors[j].id == vendorId ==> j == k
    ensures Rerated(vendors, reviews, vendorId)
         == vendors[..k] + vendors[k + 1..] + [vendors[k].(rating := Mean(Filter(reviews, ForVendor(vendorId))))]
    ensures FindFirst(Rerated(vendors, reviews, vendorId), IdIs(vendorId))
         == Some(vendors[k].(rating := Mean(Filter(reviews, ForVendor(vendorId)))))
  {
    assert IsFirstMatch(vendors, IdIs(vendorId), k);
    FindFirstAt(vendors, IdIs(vendorId), k);
    RemoveFirstAt(vendors, IdIs(vendorId), k);
    FindAfterOthers(vendors, k, vendors[k].(rating := Mean(Filter(reviews, ForVendor(vendorId)))));
  }

  /** With the only record of its id taken out of `vendors`, a record of that id appended is the one found. */
  lemma FindAfterOthers(vendors: seq<VendorRecord>, k: int, x: VendorRecord)
    requires 0 <= k < |vendors| && x.id == vendors[k].id
    requires forall j :: 0 <= j < |vendors| && vendors[j].id == x.id ==> j == k
    ensures FindFirst(vendors[..k] + vendors[k + 1..] + [x], IdIs(x.id)) == Some(x)
  {
    var rest := vendors[..k] + vendors[k + 1..];
    var r := rest + [x];
    forall j | 0 <= j < |rest| ensures rest[j].id != x.id {
      if j < k {
        assert rest[j] == vendors[j];
      } else {
        assert rest[j] == vendors[j + 1];
      }
    }
    assert IsFirstMatch(r, IdIs(x.id), |rest|);
    FindFirstAt(r, IdIs(x.id), |rest|);
  }

  /** Re-rating replaces one record of the vendor and no other vendor's record. */
  lemma ReratedKeepsOthers(vendors: seq<VendorRecord>, reviews: seq<Review>, vendorId: string)
    ensures |Rerated(vendors, reviews, vendorId)| == |vendors|
    ensures forall v: VendorRecord :: v.id != vendorId ==>
      multiset(Rerated(vendors, reviews, vendorId))[v] == multiset(vendors)[v]
  {
    var mine := Filter(reviews, ForVendor(vendorId));
    if mine != [] && FindFirst(vendors, IdIs(vendorId)).Some? {
      var k :| IsFirstMatch(vendors, IdIs(vendorId), k) by {
        FirstMatchExists(vendors, IdIs(vendorId));
      }
      FindFirstAt(vendors, IdIs(vendorId), k);
      RemoveFirstAt(vendors, IdIs(vendorId), k);
      MultisetRemoveAt(vendors, k);
    }
  }

  /** Some element satisfies `p`, so there is a first one. */
  lemma {:induction false} FirstMatchExists<T>(s: seq<T>, p: T -> bool)
    requires FindFirst(s, p).Some?
    ensures exists k :: IsFirstMatch(s, p, k)
    decreases |s|
  {
    if !p(s[0]) {
      FirstMatchExists(s[1..], p);
      FirstMatchShift(s, p);
    } else {
      assert IsFirstMatch(s, p, 0);
    }
  }
}
