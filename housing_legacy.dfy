/**
 * The older copy of the housing page, kept outside the front-end
 * directory. It declares its own listing table and its own filter; the
 * lemmas here show that both agree with the front-end page listing by
 * listing, so the older copy is the same page with a different layout.
 */
module HousingLegacy {
  import Housing

  /** This copy's own HOUSING_DATA table. */
  const LegacyHousingData: seq<Housing.Listing> := [
    Housing.Listing(1, "Greenwood Social Housing", "Downtown District", 450, "Apartment", 2, 1, true, ["Section 8", "Family"]),
    Housing.Listing(2, "Sunrise Community Homes", "Westside Gardens", 600, "Townhouse", 3, 2, true, ["Low Income", "Accessible"]),
    Housing.Listing(3, "Oakwood Senior Living", "North Hills", 350, "Studio", 1, 1, true, ["Senior", "Utility Included"]),
    Housing.Listing(4, "Metro Affordable Units", "City Center", 550, "Apartment", 2, 1, false, ["Workforce Housing"]),
    Housing.Listing(5, "Riverview Cooperative", "East River", 400, "Apartment", 2, 1, true, ["Co-op", "Family"]),
    Housing.Listing(6, "Highland Park Homes", "Highland Park", 700, "Single Family", 4, 2, false, ["Large Family"])
  ]

  /** This copy's initial filter state. */
  const LegacyInitialFilters: Housing.Filters := Housing.Filters(1000, "All", false)

  /** This copy's filter callback, written as a block with a `return`. */
  predicate LegacyAdmits(f: Housing.Filters, h: Housing.Listing) {
    h.rent <= f.maxRent && (f.kind == "All" || h.kind == f.kind) && (!f.subsidizedOnly || h.subsidized)
  }

  /** `HOUSING_DATA.filter(...)` with this copy's own callback. */
  function LegacyFilter(data: seq<Housing.Listing>, f: Housing.Filters): (r: seq<Housing.Listing>)
    ensures forall h :: h in r ==> LegacyAdmits(f, h)
    ensures forall h :: h in data && LegacyAdmits(f, h) ==> h in r
    ensures Housing.IsSubsequence(r, data)
  {
    if data == [] then []
    else
      var rest := LegacyFilter(data[1..], f);
      assert data == [data[0]] + data[1..];
      if LegacyAdmits(f, data[0]) then
        assert ([data[0]] + rest)[1..] == rest;
        [data[0]] + rest
      else rest
  }

  /** The older page's shown list. */
  function LegacyFilteredHousing(f: Housing.Filters): seq<Housing.Listing> {
    LegacyFilter(LegacyHousingData, f)
  }

  /** Both callbacks decide every listing the same way. */
  lemma AdmitsAgree(f: Housing.Filters)
    ensures forall h :: LegacyAdmits(f, h) <==> Housing.Admits(f, h)
  {
  }

  /** Since the callbacks agree, the two filters give the same list on any data. */
  lemma {:induction false} FiltersAgree(data: seq<Housing.Listing>, f: Housing.Filters)
    ensures LegacyFilter(data, f) == Housing.FilterListings(data, f)
  {
    if data != [] {
      FiltersAgree(data[1..], f);
      AdmitsAgree(f);
    }
  }

  /** Both copies hold the same six listings in the same order, and start from the same filters. */
  lemma SameDataAsFrontEnd()
    ensures LegacyHousingData == Housing.HousingData
    ensures LegacyInitialFilters == Housing.InitialFilters
  {
  }

  /** For every filter state both pages show the same units, so the "units found" counts agree. */
  lemma SameListingsAsFrontEnd(f: Housing.Filters)
    ensures LegacyFilteredHousing(f) == Housing.FilteredHousing(f)
    ensures |LegacyFilteredHousing(f)| == Housing.UnitsFound(f)
  {
    SameDataAsFrontEnd();
    FiltersAgree(LegacyHousingData, f);
  }

  /** The older page also lists all six units on first render. */
  lemma LegacyInitialListsAll()
    ensures LegacyFilteredHousing(LegacyInitialFilters) == LegacyHousingData
  {
    SameDataAsFrontEnd();
    FiltersAgree(LegacyHousingData, LegacyInitialFilters);
    Housing.InitialFiltersListAll();
  }
}
