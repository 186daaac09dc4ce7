/**
 * Vendor search (service/VendorService.java): the stages of `searchVendors`, each of which a
 * null criterion switches off, the rating order of `getVendorsSortedByRating`, and
 * `getVendorsByPriceRange`. The two repositories are the in-memory sequences `vendors` and
 * `services`.
 */
module VendorSearch {
  import opened Wrappers
  import opened Seqs
  import opened Text
  import opened VendorModel
  import opened Services

  /**
   * `VendorSearchCriteria`; `availabilityDate` is the date already formatted as "yyyy-MM-dd".
   * The search never reads `location`, `minPrice` or `maxPrice`.
   */
  datatype SearchCriteria = SearchCriteria(
    vendorType: Option<VendorType>,
    location: Option<string>,
    minRating: Option<real>,
    maxRating: Option<real>,
    minPrice: Option<real>,
    maxPrice: Option<real>,
    availabilityDate: Option<string>,
    keywords: Option<seq<string>>)

  function And<T>(p: T -> bool, q: T -> bool): T -> bool {
    (x: T) => p(x) && q(x)
  }

  /** The keyword test: the lower-cased keyword occurs in the lower-cased name or business name. */
  predicate MatchesKeyword(v: VendorRecord, keyword: string) {
    (v.name.Some? && Contains(Lower(v.name.value), Lower(keyword))) ||
    (v.businessName.Some? && Contains(Lower(v.businessName.value), Lower(keyword)))
  }

  predicate MatchesAnyKeyword(v: VendorRecord, keywords: seq<string>) {
    exists i :: 0 <= i < |keywords| && MatchesKeyword(v, keywords[i])
  }

  function AnyKeyword(keywords: seq<string>): VendorRecord -> bool {
    (v: VendorRecord) => MatchesAnyKeyword(v, keywords)
  }

  /** The five stages of the search, each passing every vendor when its criterion is absent. */
  function TypeStage(c: SearchCriteria): VendorRecord -> bool {
    (v: VendorRecord) => c.vendorType.None? || v.vendorType == c.vendorType
  }

  function MinRatingStage(c: SearchCriteria): VendorRecord -> bool {
    (v: VendorRecord) => c.minRating.None? || v.rating >= c.minRating.value
  }

  function MaxRatingStage(c: SearchCriteria): VendorRecord -> bool {
    (v: VendorRecord) => c.maxRating.None? || v.rating <= c.maxRating.value
  }

  function AvailabilityStage(c: SearchCriteria): VendorRecord -> bool {
    (v: VendorRecord) =>
      c.availabilityDate.None? ||
      (v.availability.Some? && c.availabilityDate.value in v.availability.value)
  }

  function KeywordStage(c: SearchCriteria): VendorRecord -> bool {
    (v: VendorRecord) =>
      c.keywords.None? || c.keywords.value == [] || MatchesAnyKeyword(v, c.keywords.value)
  }

  /** What a vendor must satisfy to be in the search result: every stage at once. */
  function Matches(c: SearchCriteria): VendorRecord -> bool {
    And(And(And(And(TypeStage(c), MinRatingStage(c)), MaxRatingStage(c)), AvailabilityStage(c)), KeywordStage(c))
  }

  /** The stages applied one after the other select what their conjunction selects. */
  lemma StagesCompose(vs: seq<VendorRecord>, c: SearchCriteria)
    ensures Filter(Filter(Filter(Filter(Filter(vs, TypeStage(c)), MinRatingStage(c)), MaxRatingStage(c)),
                          AvailabilityStage(c)), KeywordStage(c))
         == Filter(vs, Matches(c))
  {
    var p2 := And(TypeStage(c), MinRatingStage(c));
    var p3 := And(p2, MaxRatingStage(c));
    var p4 := And(p3, AvailabilityStage(c));
    FilterCompose(vs, TypeStage(c), MinRatingStage(c), p2);
    FilterCompose(vs, p2, MaxRatingStage(c), p3);
    FilterCompose(vs, p3, AvailabilityStage(c), p4);
    FilterCompose(vs, p4, KeywordStage(c), Matches(c));
  }

  /** A stage that is switched off keeps the list as it is. */
  lemma StageOff(vs: seq<VendorRecord>, p: VendorRecord -> bool)
    requires forall v :: p(v)
    ensures Filter(vs, p) == vs
  {
    FilterKeepsAll(vs, p);
  }

  /** One stream stage: filters by `p` when its criterion is present; an absent one passes everything. */
  method ApplyStage(vs: seq<VendorRecord>, present: bool, p: VendorRecord -> bool) returns (r: seq<VendorRecord>)
    requires !present ==> forall v :: p(v)
    ensures r == Filter(vs, p)
  {
    if present {
      r := Filter(vs, p);
    } else {
      r := vs;
      StageOff(vs, p);
    }
  }

  class VendorService {
    var vendors: seq<VendorRecord>
    var services: seq<Service>

    constructor (vendors: seq<VendorRecord>, services: seq<Service>)
      ensures this.vendors == vendors && this.services == services
    {
      this.vendors := vendors;
      this.services := services;
    }

    /**
     * The vendors that pass every stage, in repository order. The type, rating and availability
     * stages are stream filters; the keyword stage is the nested loop that stops at the first
     * keyword found in the name or the business name.
     */
    method SearchVendors(criteria: SearchCriteria) returns (filteredVendors: seq<VendorRecord>)
      ensures filteredVendors == Filter(vendors, Matches(criteria))
    {
      var allVendors := vendors;
      filteredVendors := allVendors;
      filteredVendors := ApplyStage(filteredVendors, criteria.vendorType.Some?, TypeStage(criteria));
      filteredVendors := ApplyStage(filteredVendors, criteria.minRating.Some?, MinRatingStage(criteria));
      filteredVendors := ApplyStage(filteredVendors, criteria.maxRating.Some?, MaxRatingStage(criteria));
      filteredVendors := ApplyStage(filteredVendors, criteria.availabilityDate.Some?, AvailabilityStage(criteria));
      ghost var beforeKeywords := filteredVendors;
      if criteria.keywords.Some? && criteria.keywords.value != [] {
        filteredVendors := KeywordFilter(filteredVendors, criteria.keywords.value);
        FilterExtensional(beforeKeywords, KeywordStage(criteria), AnyKeyword(criteria.keywords.value));
      } else {
        StageOff(filteredVendors, KeywordStage(criteria));
      }
      StagesCompose(allVendors, criteria);
    }

    /** Rating order, highest first, of every vendor in the repository; equal ratings keep their order. */
    method GetVendorsSortedByRating() returns (r: seq<VendorRecord>)
      ensures multiset(r) == multiset(vendors)
      ensures forall i, j :: 0 <= i < j < |r| ==> r[i].rating >= r[j].rating
      ensures forall rating :: Filter(r, HasRating(rating)) == Filter(vendors, HasRating(rating))
      ensures r == SortByRatingDescending(vendors)
    {
      r := SortByRatingDescending(vendors);
    }

    /**
     * Scans the services for prices within the optional bounds but records no vendor id for
     * them, so the vendors it returns are those whose id is in an empty list: none.
     */
    method GetVendorsByPriceRange(minPrice: Option<real>, maxPrice: Option<real>) returns (r: seq<VendorRecord>)
      ensures r == []
    {
      var vendorIds: seq<string> := [];
      for k := 0 to |services|
        invariant vendorIds == []
      {
        var price := services[k].basePrice;
        if (minPrice.None? || price >= minPrice.value) && (maxPrice.None? || price <= maxPrice.value) {
          // `getVendorsByPriceRange` never records the id of the vendor that offers the service
        }
      }
      r := Filter(vendors, (v: VendorRecord) => v.id in vendorIds);
      FilterDropsAll(vendors, (v: VendorRecord) => v.id in vendorIds);
    }
  }

  /** The keyword stage: keeps each vendor that some keyword matches, in order. */
  method KeywordFilter(vs: seq<VendorRecord>, keywords: seq<string>) returns (kept: seq<VendorRecord>)
    ensures kept == Filter(vs, AnyKeyword(keywords))
  {
    kept := [];
    for k := 0 to |vs|
      invariant kept == Filter(vs[..k], AnyKeyword(keywords))
    {
      var vendor := vs[k];
      var matchesKeyword := false;
      var j := 0;
      while j < |keywords|
        invariant 0 <= j <= |keywords|
        invariant !matchesKeyword
        invariant forall i :: 0 <= i < j ==> !MatchesKeyword(vendor, keywords[i])
      {
        var keyword := Lower(keywords[j]);
        if (vendor.name.Some? && Contains(Lower(vendor.name.value), keyword)) ||
           (vendor.businessName.Some? && Contains(Lower(vendor.businessName.value), keyword)) {
          matchesKeyword := true;
          break;
        }
        j := j + 1;
      }
      assert matchesKeyword == MatchesAnyKeyword(vendor, keywords);
      assert vs[..k + 1] == vs[..k] + [vendor];
      FilterAppend(vs[..k], vendor, AnyKeyword(keywords));
      if matchesKeyword {
        kept := kept + [vendor];
      }
    }
    assert vs[..|vs|] == vs;
  }

  /** What passing every stage means for one vendor. */
  predicate Selected(c: SearchCriteria, v: VendorRecord) {
    (c.vendorType.Some? ==> v.vendorType == c.vendorType) &&
    (c.minRating.Some? ==> c.minRating.value <= v.rating) &&
    (c.maxRating.Some? ==> v.rating <= c.maxRating.value) &&
    (c.availabilityDate.Some? ==> v.availability.Some? && c.availabilityDate.value in v.availability.value) &&
    (c.keywords.Some? && c.keywords.value != [] ==> MatchesAnyKeyword(v, c.keywords.value))
  }

  lemma MatchesIsSelected(c: SearchCriteria)
    ensures forall v: VendorRecord :: Matches(c)(v) == Selected(c, v)
  {
  }

  /**
   * A vendor is in the result exactly when it is in the repository and passes every criterion
   * given: the type is equal, the rating lies within both bounds (inclusive), the availability
   * list holds the date, and one of a non-empty list of keywords occurs in the name or the
   * business name. The result keeps the repository order and each such vendor's occurrences.
   */
  lemma SearchSelectsExactly(vs: seq<VendorRecord>, c: SearchCriteria)
    ensures IsSubseq(Filter(vs, Matches(c)), vs)
    ensures forall v: VendorRecord :: v in Filter(vs, Matches(c)) <==> v in vs && Selected(c, v)
    ensures forall v: VendorRecord :: Selected(c, v) ==> multiset(Filter(vs, Matches(c)))[v] == multiset(vs)[v]
  {
    MatchesIsSelected(c);
    FilterIsSubseq(vs, Matches(c));
    FilterMembersAll(vs, Matches(c));
    forall v: VendorRecord | Selected(c, v) ensures multiset(Filter(vs, Matches(c)))[v] == multiset(vs)[v] {
      FilterCount(vs, Matches(c), v);
    }
  }

  /** With every criterion null, or an empty keyword list, the search returns every vendor. */
  lemma NoCriteriaKeepsAll(vs: seq<VendorRecord>, c: SearchCriteria)
    requires c.vendorType.None? && c.minRating.None? && c.maxRating.None? && c.availabilityDate.None?
    requires c.keywords.None? || c.keywords.value == []
    ensures Filter(vs, Matches(c)) == vs
  {
    FilterKeepsAll(vs, Matches(c));
  }

  /** Location and price bounds do not change the result. */
  lemma SearchIgnoresLocationAndPrice(vs: seq<VendorRecord>, c: SearchCriteria,
                                      location: Option<string>, minPrice: Option<real>, maxPrice: Option<real>)
    ensures Filter(vs, Matches(c.(location := location, minPrice := minPrice, maxPrice := maxPrice)))
         == Filter(vs, Matches(c))
  {
    var d := c.(location := location, minPrice := minPrice, maxPrice := maxPrice);
    FilterExtensional(vs, Matches(d), Matches(c));
  }

  /** A vendor with neither a name nor a business name matches no keyword. */
  lemma NamelessVendorMatchesNoKeyword(v: VendorRecord, keywords: seq<string>)
    requires v.name.None? && v.businessName.None?
    ensures !MatchesAnyKeyword(v, keywords)
  {
  }

  /** Keywords match whatever their letter case; the empty keyword matches every present name. */
  lemma KeywordsIgnoreCase(v: VendorRecord, keyword: string)
    ensures MatchesKeyword(v, Lower(keyword)) == MatchesKeyword(v, keyword)
    ensures v.name.Some? ==> MatchesKeyword(v, "")
  {
    CaseMappingIdempotent(keyword);
    if v.name.Some? {
      ContainsEmpty(Lower(v.name.value));
    }
  }
}
