/**
 * The explore feed: the listings shown for the current query and filter
 * settings, boosted listings first and newest first within each group,
 * and the merge of the stored listings with the built-in mock listings.
 */
module Explore {
  import opened Wrappers
  import opened Records
  import opened Text
  import opened Sorting

  /** The type filter: `'ALL'` or one listing type. */
  datatype TypeFilter = AllTypes | Only(listingType: ListingType)

  /**
   * The filter state the page keeps: the type, the price range, the
   * region (the literal `"ALL"` switches the filter off) and whether an
   * assisted search is in flight.
   */
  datatype Filters = Filters(
    activeType: TypeFilter, minPrice: real, maxPrice: real,
    selectedRegion: string, isSearching: bool)

  const ALL_REGIONS: string := "ALL"

  /** `Array.prototype.filter`. */
  function Keep<T(==, !new)>(s: seq<T>, p: T -> bool): (r: seq<T>)
    ensures forall x :: multiset(r)[x] == if p(x) then multiset(s)[x] else 0
    ensures |r| <= |s|
  {
    if |s| == 0 then []
    else
      assert s == [s[0]] + s[1..];
      (if p(s[0]) then [s[0]] else []) + Keep(s[1..], p)
  }

  // ---- what one listing must satisfy to be shown ----

  /** The text filter runs only for a non-blank query and while no assisted search is in flight. */
  predicate QueryActive(query: string, f: Filters)
  {
    Trim(query) != "" && !f.isSearching
  }

  /** The lower-cased title or description contains `q` (already lower-cased). */
  predicate MatchesQuery(l: Listing, q: string)
  {
    Contains(Lower(l.title), q) || Contains(Lower(l.description), q)
  }

  predicate TypeOk(f: Filters, l: Listing)
  {
    f.activeType.AllTypes? || l.listingType == f.activeType.listingType
  }

  /** A `'NEGOTIABLE'` price always passes; a number passes inside the closed range. */
  predicate PriceOk(f: Filters, l: Listing)
  {
    match l.price
    case Negotiable => true
    case Amount(p) => f.minPrice <= p <= f.maxPrice
  }

  predicate RegionOk(f: Filters, l: Listing)
  {
    f.selectedRegion == ALL_REGIONS || Contains(Lower(l.location), Lower(f.selectedRegion))
  }

  /** The text filter, when it runs, matches the lower-cased query. */
  predicate QueryOk(query: string, f: Filters, l: Listing)
  {
    QueryActive(query, f) ==> MatchesQuery(l, Lower(query))
  }

  /** The listing survives every filter of the feed. */
  predicate Shown(query: string, f: Filters, l: Listing)
  {
    && QueryOk(query, f, l)
    && TypeOk(f, l)
    && PriceOk(f, l)
    && RegionOk(f, l)
  }

  /** The feed comparator (`<= 0`): boosted first, then `createdAt` descending. */
  predicate FeedOrder(a: Listing, b: Listing)
  {
    if a.isBoosted == b.isBoosted then StrLe(b.createdAt, a.createdAt) else a.isBoosted
  }

  lemma FeedOrderIsPreorder()
    ensures TotalPreorder(FeedOrder)
  {
    forall a: Listing, b: Listing ensures FeedOrder(a, b) || FeedOrder(b, a) {
      StrLeTotal(a.createdAt, b.createdAt);
    }
    forall a: Listing, b: Listing, c: Listing | FeedOrder(a, b) && FeedOrder(b, c)
      ensures FeedOrder(a, c)
    {
      if a.isBoosted == b.isBoosted == c.isBoosted {
        StrLeTrans(c.createdAt, b.createdAt, a.createdAt);
      }
    }
  }

  /**
   * `result.sort(...)` with the feed comparator: the same listings,
   * boosted ones before the others, newest `createdAt` first within each
   * group.
   */
  method SortFeed(s: seq<Listing>) returns (r: seq<Listing>)
    ensures multiset(r) == multiset(s)
    ensures forall i, j :: 0 <= i < j < |r| && r[j].isBoosted ==> r[i].isBoosted
    ensures forall i, j :: 0 <= i < j < |r| && r[i].isBoosted == r[j].isBoosted ==>
              StrLe(r[j].createdAt, r[i].createdAt)
  {
    FeedOrderIsPreorder();
    SortBySorted(s, FeedOrder);
    r := SortBy(s, FeedOrder);
    forall i, j | 0 <= i < j < |r| ensures FeedOrder(r[i], r[j]) { }
  }

  /**
   * The filters of `applyFilters`, each applied to the previous one's
   * result: exactly the listings that pass every filter are kept, each
   * as often as it occurs in the input.
   */
  function Sift(listings: seq<Listing>, currentQuery: string, f: Filters): (r: seq<Listing>)
    ensures forall l :: multiset(r)[l] == if Shown(currentQuery, f, l) then multiset(listings)[l] else 0
  {
    var q := Lower(currentQuery);
    var byQuery := if QueryActive(currentQuery, f) then Keep(listings, (l: Listing) => MatchesQuery(l, q)) else listings;
    var byType := if f.activeType.Only? then Keep(byQuery, (l: Listing) => l.listingType == f.activeType.listingType) else byQuery;
    var byPrice := Keep(byType, (l: Listing) => PriceOk(f, l));
    if f.selectedRegion != ALL_REGIONS then Keep(byPrice, (l: Listing) => Contains(Lower(l.location), Lower(f.selectedRegion)))
    else byPrice
  }

  /**
   * `applyFilters`: the filters, then the in-place sort of the feed.
   */
  method ApplyFilters(listings: seq<Listing>, currentQuery: string, f: Filters) returns (result: seq<Listing>)
    ensures forall l :: multiset(result)[l] == if Shown(currentQuery, f, l) then multiset(listings)[l] else 0
    ensures forall i, j :: 0 <= i < j < |result| && result[j].isBoosted ==> result[i].isBoosted
    ensures forall i, j :: 0 <= i < j < |result| && result[i].isBoosted == result[j].isBoosted ==>
              StrLe(result[j].createdAt, result[i].createdAt)
  {
    result := Sift(listings, currentQuery, f);
    result := SortFeed(result);
  }

  // ---- properties of the filters ----

  /** Lower-casing keeps white space white and letters non-white. */
  lemma LowerCharWhite(c: char)
    ensures IsWhite(LowerChar(c)) <==> IsWhite(c)
  {
  }

  /** A query is blank exactly when its lower-cased form is. */
  lemma {:induction false} LowerBlank(s: string)
    ensures Trim(Lower(s)) == "" <==> Trim(s) == ""
  {
    TrimEmptyIff(s);
    TrimEmptyIff(Lower(s));
    forall i | 0 <= i < |s| ensures IsWhite(Lower(s)[i]) <==> IsWhite(s[i]) {
      LowerCharWhite(s[i]);
    }
  }

  /** The text filter ignores the case of the query. */
  lemma QueryCaseInsensitive(query: string, f: Filters, l: Listing)
    ensures Shown(Lower(query), f, l) <==> Shown(query, f, l)
  {
    LowerBlank(query);
    LowerIdempotent(query);
  }

  /** A blank query, or one typed while an assisted search runs, filters nothing by text. */
  lemma QuerySkipped(query: string, f: Filters, l: Listing)
    requires Trim(query) == "" || f.isSearching
    ensures Shown(query, f, l) <==> TypeOk(f, l) && PriceOk(f, l) && RegionOk(f, l)
  {
  }

  /** A negotiable listing is shown whatever the price range. */
  lemma NegotiableIgnoresRange(query: string, f: Filters, l: Listing, lo: real, hi: real)
    requires l.price == Negotiable
    ensures Shown(query, f.(minPrice := lo, maxPrice := hi), l) <==> Shown(query, f, l)
  {
  }

  /** With every filter open, the feed keeps every listing whose numeric price is in range. */
  lemma AllFiltersOpen(query: string, f: Filters, l: Listing)
    requires Trim(query) == "" && f.activeType == AllTypes && f.selectedRegion == ALL_REGIONS
    requires l.price.Amount? ==> f.minPrice <= l.price.value <= f.maxPrice
    ensures Shown(query, f, l)
  {
  }

  // ---- the merge in loadAllData ----

  predicate HasId(ls: seq<Listing>, id: string)
  {
    exists i :: 0 <= i < |ls| && ls[i].id == id
  }

  predicate DistinctIds(ls: seq<Listing>)
  {
    forall i, j :: 0 <= i < j < |ls| ==> ls[i].id != ls[j].id
  }

  /** `ls.find(c => c.id === id)`: the first listing with the id. */
  function FindById(ls: seq<Listing>, id: string): (r: Option<Listing>)
    ensures r.None? <==> !HasId(ls, id)
    ensures r.Some? ==> r.value in ls && r.value.id == id
    ensures r.Some? ==> exists i :: 0 <= i < |ls| && ls[i] == r.value && forall k :: 0 <= k < i ==> ls[k].id != id
  {
    if |ls| == 0 then None
    else if ls[0].id == id then
      assert ls[0] == ls[0];
      Some(ls[0])
    else
      assert forall i :: 0 < i < |ls| ==> ls[i] == ls[1..][i - 1];
      var r := FindById(ls[1..], id);
      assert r.Some? ==> exists i :: 0 <= i < |ls| && ls[i] == r.value && forall k :: 0 <= k < i ==> ls[k].id != id by {
        if r.Some? {
          var i :| 0 <= i < |ls[1..]| && ls[1..][i] == r.value && forall k :: 0 <= k < i ==> ls[1..][k].id != id;
          assert ls[i + 1] == r.value;
        }
      }
      r
  }

  /**
   * The merge in `loadAllData`: the stored listings, then the mocks in
   * their order, each appended only when no listing before it (the mocks
   * already appended included) has its id.
   */
  function Merged(custom: seq<Listing>, mocks: seq<Listing>): (r: seq<Listing>)
    ensures |r| >= |custom| && r[..|custom|] == custom
  {
    if |mocks| == 0 then custom
    else
      var prev := Merged(custom, mocks[..|mocks| - 1]);
      var mock := mocks[|mocks| - 1];
      if FindById(prev, mock.id).None? then prev + [mock] else prev
  }

  /** Only mocks are appended, each with an id no listing before it has. */
  lemma {:induction false} MergedAppendsNewMocks(custom: seq<Listing>, mocks: seq<Listing>)
    ensures forall k :: |custom| <= k < |Merged(custom, mocks)| ==> Merged(custom, mocks)[k] in mocks
    ensures forall j, k :: 0 <= j < k < |Merged(custom, mocks)| && |custom| <= k ==>
              Merged(custom, mocks)[j].id != Merged(custom, mocks)[k].id
  {
    if |mocks| > 0 {
      var init := mocks[..|mocks| - 1];
      var prev := Merged(custom, init);
      var mock := mocks[|mocks| - 1];
      MergedAppendsNewMocks(custom, init);
      var r := Merged(custom, mocks);
      if FindById(prev, mock.id).None? {
        assert r == prev + [mock];
        forall k | |custom| <= k < |r| ensures r[k] in mocks {
          if k < |prev| {
            assert r[k] == prev[k] && prev[k] in init;
          }
        }
        forall j, k | 0 <= j < k < |r| && |custom| <= k ensures r[j].id != r[k].id {
          if k < |prev| {
            assert r[j] == prev[j] && r[k] == prev[k];
          } else {
            assert r[j] == prev[j] && r[k] == mock;
          }
        }
      } else {
        assert r == prev;
        forall k | |custom| <= k < |r| ensures r[k] in mocks {
          assert prev[k] in init;
        }
      }
    }
  }

  /** Every mock's id is present after the merge. */
  lemma {:induction false} MergedHasEveryMock(custom: seq<Listing>, mocks: seq<Listing>)
    ensures forall m :: 0 <= m < |mocks| ==> HasId(Merged(custom, mocks), mocks[m].id)
  {
    if |mocks| > 0 {
      var init := mocks[..|mocks| - 1];
      var prev := Merged(custom, init);
      var mock := mocks[|mocks| - 1];
      MergedHasEveryMock(custom, init);
      var r := Merged(custom, mocks);
      assert r[..|prev|] == prev;
      forall m | 0 <= m < |mocks| ensures HasId(r, mocks[m].id) {
        if m < |init| {
          assert init[m] == mocks[m];
          var j :| 0 <= j < |prev| && prev[j].id == mocks[m].id;
          assert r[j] == prev[j];
        } else if FindById(prev, mock.id).None? {
          assert r[|r| - 1].id == mocks[m].id;
        } else {
          var j :| 0 <= j < |prev| && prev[j].id == mocks[m].id;
          assert r[j] == prev[j];
        }
      }
    }
  }

  /** Distinct stored ids give distinct ids overall. */
  lemma MergedDistinct(custom: seq<Listing>, mocks: seq<Listing>)
    requires DistinctIds(custom)
    ensures DistinctIds(Merged(custom, mocks))
  {
    MergedAppendsNewMocks(custom, mocks);
    var r := Merged(custom, mocks);
    forall j, k | 0 <= j < k < |r| ensures r[j].id != r[k].id {
      if k < |custom| {
        assert r[j] == custom[j] && r[k] == custom[k];
      }
    }
  }

  /** Splitting off the last element of the second part of a concatenation. */
  lemma SnocSplit<T>(a: seq<T>, b: seq<T>)
    requires |b| > 0
    ensures a + b == (a + b[..|b| - 1]) + [b[|b| - 1]]
  {
    assert b == b[..|b| - 1] + [b[|b| - 1]];
  }

  /** A prefix of listings with distinct ids has distinct ids, none equal to the next one's. */
  lemma DistinctSnoc(before: seq<Listing>, x: Listing)
    requires DistinctIds(before + [x])
    ensures DistinctIds(before) && !HasId(before, x.id)
  {
    var all := before + [x];
    assert forall i :: 0 <= i < |before| ==> all[i] == before[i];
    assert all[|before|] == x;
  }

  /** When no two of the stored and mock ids clash, every mock is appended, in order. */
  lemma {:induction false} MergedFresh(custom: seq<Listing>, mocks: seq<Listing>)
    requires DistinctIds(custom + mocks)
    ensures Merged(custom, mocks) == custom + mocks
  {
    if |mocks| > 0 {
      var init := mocks[..|mocks| - 1];
      var mock := mocks[|mocks| - 1];
      SnocSplit(custom, mocks);
      DistinctSnoc(custom + init, mock);
      MergedFresh(custom, init);
    }
  }

  /** Mocks whose ids are all stored already add nothing. */
  lemma {:induction false} MergedKnown(custom: seq<Listing>, mocks: seq<Listing>)
    requires forall m :: 0 <= m < |mocks| ==> HasId(custom, mocks[m].id)
    ensures Merged(custom, mocks) == custom
  {
    if |mocks| > 0 {
      var init := mocks[..|mocks| - 1];
      assert forall m :: 0 <= m < |init| ==> init[m] == mocks[m];
      MergedKnown(custom, init);
      assert HasId(custom, mocks[|mocks| - 1].id);
    }
  }

  /** The loop of `loadAllData` over `MOCK_LISTINGS`, with `find` deciding each push. */
  method MergeMocks(custom: seq<Listing>, mocks: seq<Listing>) returns (combined: seq<Listing>)
    ensures combined == Merged(custom, mocks)
    ensures |combined| >= |custom| && combined[..|custom|] == custom
    ensures forall k :: |custom| <= k < |combined| ==> combined[k] in mocks
    ensures forall j, k :: 0 <= j < k < |combined| && |custom| <= k ==> combined[j].id != combined[k].id
    ensures forall m :: 0 <= m < |mocks| ==> HasId(combined, mocks[m].id)
    ensures DistinctIds(custom) ==> DistinctIds(combined)
  {
    combined := custom;
    var i := 0;
    while i < |mocks|
      invariant 0 <= i <= |mocks|
      invariant combined == Merged(custom, mocks[..i])
    {
      var mock := mocks[i];
      assert mocks[..i + 1][..i] == mocks[..i];
      if FindById(combined, mock.id).None? {
        combined := combined + [mock];
      }
      i := i + 1;
    }
    assert mocks[..|mocks|] == mocks;
    MergedAppendsNewMocks(custom, mocks);
    MergedHasEveryMock(custom, mocks);
    if DistinctIds(custom) {
      MergedDistinct(custom, mocks);
    }
  }
}
