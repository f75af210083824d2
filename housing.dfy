/**
 * The housing listing page: the static listing data, the initial filter
 * settings and the filter applied with `Array.filter`.
 */
module Housing {

  /** One listing of HOUSING_DATA; the picture URL is presentational and not modelled. */
  datatype Listing = Listing(
    id: nat,
    title: string,
    location: string,
    rent: nat,
    kind: string,
    beds: nat,
    baths: nat,
    subsidized: bool,
    tags: seq<string>)

  /** The filter state: a rent ceiling, a housing type or "All", and "subsidized only". */
  datatype Filters = Filters(maxRent: int, kind: string, subsidizedOnly: bool)

  const HousingData: seq<Listing> := [
    Listing(1, "Greenwood Social Housing", "Downtown District", 450, "Apartment", 2, 1, true, ["Section 8", "Family"]),
    Listing(2, "Sunrise Community Homes", "Westside Gardens", 600, "Townhouse", 3, 2, true, ["Low Income", "Accessible"]),
    Listing(3, "Oakwood Senior Living", "North Hills", 350, "Studio", 1, 1, true, ["Senior", "Utility Included"]),
    Listing(4, "Metro Affordable Units", "City Center", 550, "Apartment", 2, 1, false, ["Workforce Housing"]),
    Listing(5, "Riverview Cooperative", "East River", 400, "Apartment", 2, 1, true, ["Co-op", "Family"]),
    Listing(6, "Highland Park Homes", "Highland Park", 700, "Single Family", 4, 2, false, ["Large Family"])
  ]

  const InitialFilters: Filters := Filters(1000, "All", false)

  /** The predicate handed to `filter`. */
  predicate Admits(f: Filters, h: Listing) {
    && h.rent <= f.maxRent
    && (f.kind == "All" || h.kind == f.kind)
    && (!f.subsidizedOnly || h.subsidized)
  }

  /** `a` is `b` with some elements left out, the rest kept in order. */
  predicate IsSubsequence<T(==)>(a: seq<T>, b: seq<T>)
    decreases |b|
  {
    a == [] || (b != [] && ((a[0] == b[0] && IsSubsequence(a[1..], b[1..])) || IsSubsequence(a, b[1..])))
  }

  /** `data.filter(house => Admits(filters, house))` */
  function FilterListings(data: seq<Listing>, f: Filters): (r: seq<Listing>)
    ensures forall h :: h in r ==> Admits(f, h)
    ensures forall h :: h in data && Admits(f, h) ==> h in r
    ensures multiset(r) <= multiset(data)
    ensures IsSubsequence(r, data)
  {
    if data == [] then []
    else
      var rest := FilterListings(data[1..], f);
      assert data == [data[0]] + data[1..];
      if Admits(f, data[0]) then [data[0]] + rest else rest
  }

  /** The listings the page shows for a filter state. */
  function FilteredHousing(f: Filters): seq<Listing> {
    FilterListings(HousingData, f)
  }

  lemma {:induction false} SubsequenceOfLonger<T>(a: seq<T>, x: T, b: seq<T>)
    requires IsSubsequence(a, b)
    ensures IsSubsequence(a, [x] + b)
  {
    assert ([x] + b)[1..] == b;
  }

  /**
   * A filter that admits at least what another admits lists at least the
   * same units, in the same order.
   */
  lemma {:induction false} FilterMonotone(data: seq<Listing>, f1: Filters, f2: Filters)
    requires forall h :: Admits(f1, h) ==> Admits(f2, h)
    ensures IsSubsequence(FilterListings(data, f1), FilterListings(data, f2))
  {
    if data != [] {
      FilterMonotone(data[1..], f1, f2);
      var r1, r2 := FilterListings(data[1..], f1), FilterListings(data[1..], f2);
      if Admits(f1, data[0]) {
        assert ([data[0]] + r1)[1..] == r1 && ([data[0]] + r2)[1..] == r2;
      } else if Admits(f2, data[0]) {
        SubsequenceOfLonger(r1, data[0], r2);
      }
    }
  }

  /** Raising the rent ceiling never removes a unit. */
  lemma RaisingMaxRentKeepsUnits(data: seq<Listing>, f: Filters, maxRent: int)
    requires f.maxRent <= maxRent
    ensures IsSubsequence(FilterListings(data, f), FilterListings(data, f.(maxRent := maxRent)))
  {
    FilterMonotone(data, f, f.(maxRent := maxRent));
  }

  /** Switching "subsidized only" on never adds a unit. */
  lemma SubsidizedOnlyNeverAdds(data: seq<Listing>, f: Filters)
    ensures IsSubsequence(FilterListings(data, f.(subsidizedOnly := true)), FilterListings(data, f.(subsidizedOnly := false)))
  {
    FilterMonotone(data, f.(subsidizedOnly := true), f.(subsidizedOnly := false));
  }

  /** The three rules one by one: rent ceiling, type ("All" admits every type) and subsidy. */
  lemma FilterRules(data: seq<Listing>, f: Filters, h: Listing)
    requires h in data
    ensures h in FilterListings(data, f) <==>
      h.rent <= f.maxRent && (f.kind == "All" || h.kind == f.kind) && (!f.subsidizedOnly || h.subsidized)
    ensures f.kind == "All" && !f.subsidizedOnly ==> (h in FilterListings(data, f) <==> h.rent <= f.maxRent)
  {
  }

  /** The shown list is all of the data exactly when every unit passes the filter. */
  lemma FilterKeepsAllIff(data: seq<Listing>, f: Filters)
    ensures FilterListings(data, f) == data <==> forall i :: 0 <= i < |data| ==> Admits(f, data[i])
  {
    if forall i :: 0 <= i < |data| ==> Admits(f, data[i]) {
      AllAdmittedKept(data, f);
    }
  }

  lemma {:induction false} AllAdmittedKept(data: seq<Listing>, f: Filters)
    requires forall i :: 0 <= i < |data| ==> Admits(f, data[i])
    ensures FilterListings(data, f) == data
  {
    if data != [] {
      assert forall i :: 0 <= i < |data[1..]| ==> data[1..][i] == data[i + 1];
      AllAdmittedKept(data[1..], f);
      assert data == [data[0]] + data[1..];
    }
  }

  predicate Distinct(s: seq<Listing>) {
    forall i, j :: 0 <= i < j < |s| ==> s[i] != s[j]
  }

  /** Distinct listings stay distinct in the shown list. */
  lemma {:induction false} NoDuplicates(data: seq<Listing>, f: Filters)
    requires Distinct(data)
    ensures Distinct(FilterListings(data, f))
  {
    if data != [] {
      DistinctTail(data);
      NoDuplicates(data[1..], f);
      if Admits(f, data[0]) {
        var rest := FilterListings(data[1..], f);
        assert data[0] !in rest by {
          assert multiset(data[1..])[data[0]] == 0;
        }
        DistinctCons(data[0], rest);
      }
    }
  }

  /** The six listings are numbered 1 to 6 in order. */
  lemma HousingDataIds()
    ensures forall i :: 0 <= i < |HousingData| ==> HousingData[i].id == i + 1
  {
  }

  /** No listing of the data appears twice, since their ids differ. */
  lemma HousingDataDistinct()
    ensures Distinct(HousingData)
  {
    HousingDataIds();
  }

  /** For every filter state the page shows each unit at most once. */
  lemma FilteredHousingDistinct(f: Filters)
    ensures Distinct(FilteredHousing(f))
  {
    HousingDataDistinct();
    NoDuplicates(HousingData, f);
  }

  lemma DistinctTail(data: seq<Listing>)
    requires data != [] && Distinct(data)
    ensures Distinct(data[1..]) && data[0] !in data[1..]
  {
    forall i, j | 0 <= i < j < |data[1..]| ensures data[1..][i] != data[1..][j] {
      assert data[1..][i] == data[i + 1] && data[1..][j] == data[j + 1];
    }
    forall k | 0 <= k < |data[1..]| ensures data[1..][k] != data[0] {
      assert data[1..][k] == data[k + 1];
    }
  }

  lemma DistinctCons(x: Listing, rest: seq<Listing>)
    requires Distinct(rest) && x !in rest
    ensures Distinct([x] + rest)
  {
    var r := [x] + rest;
    forall i, j | 0 <= i < j < |r| ensures r[i] != r[j] {
      assert r[j] == rest[j - 1];
      if i > 0 {
        assert r[i] == rest[i - 1];
      }
    }
  }

  /** The highest rent in the data is 700, so the initial filters (1000, "All", off) list all six units. */
  lemma InitialFiltersListAll()
    ensures FilteredHousing(InitialFilters) == HousingData
  {
    RentsAtMost700();
    UnderCeilingListsAll(HousingData, InitialFilters);
  }

  lemma RentsAtMost700()
    ensures forall i :: 0 <= i < |HousingData| ==> HousingData[i].rent <= 700
  {
  }

  /** With no type and no subsidy restriction, a ceiling above every rent lists everything. */
  lemma UnderCeilingListsAll(data: seq<Listing>, f: Filters)
    requires f.kind == "All" && !f.subsidizedOnly
    requires forall i :: 0 <= i < |data| ==> data[i].rent <= f.maxRent
    ensures FilterListings(data, f) == data
  {
    AllAdmittedKept(data, f);
  }

  /** The "N units found" count is the number of units that pass the filter, at most six. */
  function UnitsFound(f: Filters): (n: nat)
    ensures n <= |HousingData|
    ensures n == |HousingData| <==> forall i :: 0 <= i < |HousingData| ==> Admits(f, HousingData[i])
  {
    var shown := FilteredHousing(f);
    CountMatchesAll(f);
    |shown|
  }

  lemma CountMatchesAll(f: Filters)
    ensures |FilteredHousing(f)| <= |HousingData|
    ensures |FilteredHousing(f)| == |HousingData| <==> forall i :: 0 <= i < |HousingData| ==> Admits(f, HousingData[i])
  {
    var shown := FilteredHousing(f);
    SubsequenceNoLonger(shown, HousingData);
    FilterKeepsAllIff(HousingData, f);
    if |shown| == |HousingData| {
      LengthEqualSubsequence(shown, HousingData);
    }
  }

  /** A subsequence as long as the sequence is the sequence itself. */
  lemma {:induction false} LengthEqualSubsequence<T>(a: seq<T>, b: seq<T>)
    requires IsSubsequence(a, b) && |a| == |b|
    ensures a == b
  {
    if a != [] {
      if a[0] == b[0] && IsSubsequence(a[1..], b[1..]) {
        LengthEqualSubsequence(a[1..], b[1..]);
        assert a == [a[0]] + a[1..] && b == [b[0]] + b[1..];
      } else {
        SubsequenceNoLonger(a, b[1..]);
      }
    }
  }

  lemma {:induction false} SubsequenceNoLonger<T>(a: seq<T>, b: seq<T>)
    requires IsSubsequence(a, b)
    ensures |a| <= |b|
    decreases |b|
  {
    if a != [] {
      if a[0] == b[0] && IsSubsequence(a[1..], b[1..]) {
        SubsequenceNoLonger(a[1..], b[1..]);
      } else {
        SubsequenceNoLonger(a, b[1..]);
      }
    }
  }

  /** Every listed unit rents for at least 350. */
  lemma CheapestRentIs350()
    ensures forall h :: h in HousingData ==> 350 <= h.rent
    ensures HousingData[2].rent == 350
  {
  }

  /** When every unit is above the ceiling, nothing is shown, whatever the other filters. */
  lemma AllAboveCeilingShowsNothing(data: seq<Listing>, f: Filters)
    requires forall h :: h in data ==> f.maxRent < h.rent
    ensures FilterListings(data, f) == []
  {
  }

  /** A rent ceiling below 350 shows no unit. */
  lemma CeilingBelowCheapestShowsNothing(f: Filters)
    requires f.maxRent < 350
    ensures FilteredHousing(f) == []
  {
    CheapestRentIs350();
    AllAboveCeilingShowsNothing(HousingData, f);
  }
}
