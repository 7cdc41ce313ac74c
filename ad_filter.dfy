/** `filteredAds`: the predicate the library applies to every ad, built from
    four clauses (query, country, status, ad type), and the scan that keeps
    the ads it accepts. */
module AdFilter {
  import opened Types
  import opened Strings

  /** `advertisersMap.get(id)`. */
  function Lookup(advertisers: map<string, Advertiser>, id: string): Option<Advertiser> {
    if id in advertisers then Some(advertisers[id]) else None
  }

  /** `!filters.query || body.includes(q) || title.includes(q) ||
      advertiser?.name.includes(q)`, all lower-cased. */
  predicate MatchesQuery(ad: Ad, advertiser: Option<Advertiser>, query: string) {
    var q := ToLower(query);
    || query == ""
    || Contains(ToLower(ad.body), q)
    || Contains(ToLower(ad.title), q)
    || (advertiser.Some? && Contains(ToLower(advertiser.value.name), q))
  }

  /** `filters.country === 'ALL' || advertiser?.country === filters.country`. */
  predicate MatchesCountry(advertiser: Option<Advertiser>, country: string) {
    country == AllCountries || (advertiser.Some? && advertiser.value.country == country)
  }

  /** `filters.status === 'all' || ad.status === filters.status`, comparing
      the literals as the source does. */
  predicate MatchesStatus(ad: Ad, status: StatusFilter) {
    status.Name() == "all" || ad.status.Name() == status.Name()
  }

  /** `filters.adType === 'all' || true`. */
  predicate MatchesAdType(adType: AdType) {
    adType == AllAdTypes || true
  }

  predicate Matches(ad: Ad, advertisers: map<string, Advertiser>, filters: FilterState) {
    var advertiser := Lookup(advertisers, ad.advertiserId);
    && MatchesQuery(ad, advertiser, filters.query)
    && MatchesCountry(advertiser, filters.country)
    && MatchesStatus(ad, filters.status)
    && MatchesAdType(filters.adType)
  }

  /** `ads.filter(ad => ...)`: the ads the predicate accepts, in order. */
  function FilterAds(ads: seq<Ad>, advertisers: map<string, Advertiser>, filters: FilterState): (r: seq<Ad>)
    ensures |r| <= |ads|
    ensures forall k :: 0 <= k < |r| ==> r[k] in ads && Matches(r[k], advertisers, filters)
  {
    if ads == [] then []
    else
      var rest := FilterAds(ads[1..], advertisers, filters);
      if Matches(ads[0], advertisers, filters) then [ads[0]] + rest else rest
  }

  // ---------------------------------------------------------------------
  // The clauses

  /** The status clause on literals is the status clause on values. */
  lemma StatusClause(ad: Ad, status: StatusFilter)
    ensures MatchesStatus(ad, status) <==> status == AnyStatus || status == OnlyStatus(ad.status)
  {
    StatusFilterNameInjective(status, AnyStatus);
    StatusFilterNameInjective(status, OnlyStatus(ad.status));
  }

  /** A non-empty query keeps an ad exactly when its lower-cased form occurs
      in the lower-cased body, title or advertiser name. */
  lemma QueryClause(ad: Ad, advertiser: Option<Advertiser>, query: string)
    requires query != ""
    ensures MatchesQuery(ad, advertiser, query) <==>
              || IsSubstring(ToLower(query), ToLower(ad.body))
              || IsSubstring(ToLower(query), ToLower(ad.title))
              || (advertiser.Some? && IsSubstring(ToLower(query), ToLower(advertiser.value.name)))
  {
    ContainsIsSubstring(ToLower(ad.body), ToLower(query));
    ContainsIsSubstring(ToLower(ad.title), ToLower(query));
    if advertiser.Some? {
      ContainsIsSubstring(ToLower(advertiser.value.name), ToLower(query));
    }
  }

  /** A query copied, in any letter case, from part of an ad's title keeps
      that ad. */
  lemma TitleFragmentMatches(ad: Ad, advertiser: Option<Advertiser>, fragment: string, query: string)
    requires Contains(ad.title, fragment)
    requires ToLower(query) == ToLower(fragment)
    ensures MatchesQuery(ad, advertiser, query)
  {
    ContainsLowered(ad.title, fragment);
  }

  /** The query clause sees the query only through its lower-cased form. */
  lemma QueryClauseCaseInsensitive(ad: Ad, advertiser: Option<Advertiser>, q1: string, q2: string)
    requires ToLower(q1) == ToLower(q2)
    ensures MatchesQuery(ad, advertiser, q1) <==> MatchesQuery(ad, advertiser, q2)
  {
    assert |q1| == |ToLower(q1)| == |q2|;
  }

  // ---------------------------------------------------------------------
  // The scan

  /** The ads `r` can be picked out of `s` in order (each position of `s`
      used at most once). */
  predicate IsSubsequence(r: seq<Ad>, s: seq<Ad>)
    decreases |s|
  {
    if r == [] then true
    else if s == [] then false
    else (r[0] == s[0] && IsSubsequence(r[1..], s[1..])) || IsSubsequence(r, s[1..])
  }

  /** The result is a subsequence of the input: nothing is reordered or
      duplicated. */
  lemma {:induction false} FilterIsSubsequence(ads: seq<Ad>, advertisers: map<string, Advertiser>, filters: FilterState)
    ensures IsSubsequence(FilterAds(ads, advertisers, filters), ads)
  {
    if ads != [] {
      FilterIsSubsequence(ads[1..], advertisers, filters);
      var rest := FilterAds(ads[1..], advertisers, filters);
      if Matches(ads[0], advertisers, filters) {
        assert ([ads[0]] + rest)[1..] == rest;
      } else {
        SubsequenceOfTail(rest, ads);
      }
    }
  }

  lemma SubsequenceOfTail(r: seq<Ad>, s: seq<Ad>)
    requires s != [] && IsSubsequence(r, s[1..])
    ensures IsSubsequence(r, s)
  {
  }

  /** Every occurrence of an accepted ad is kept, every occurrence of a
      rejected one dropped. */
  lemma {:induction false} FilterCounts(ads: seq<Ad>, advertisers: map<string, Advertiser>, filters: FilterState, ad: Ad)
    ensures multiset(FilterAds(ads, advertisers, filters))[ad] ==
              if Matches(ad, advertisers, filters) then multiset(ads)[ad] else 0
  {
    if ads != [] {
      FilterCounts(ads[1..], advertisers, filters, ad);
      assert ads == [ads[0]] + ads[1..];
    }
  }

  /** An ad is in the result exactly when it is in the input and accepted. */
  lemma FilterMembership(ads: seq<Ad>, advertisers: map<string, Advertiser>, filters: FilterState, ad: Ad)
    ensures ad in FilterAds(ads, advertisers, filters) <==> ad in ads && Matches(ad, advertisers, filters)
  {
    FilterCounts(ads, advertisers, filters, ad);
  }

  /** The default filters (empty query, every country, every status) keep
      the whole list in its order, whatever the ad type and dates. */
  lemma {:induction false} FilterDefaultsIsIdentity(ads: seq<Ad>, advertisers: map<string, Advertiser>, filters: FilterState)
    requires filters.query == "" && filters.country == AllCountries && filters.status == AnyStatus
    ensures FilterAds(ads, advertisers, filters) == ads
  {
    if ads != [] {
      FilterDefaultsIsIdentity(ads[1..], advertisers, filters);
      assert ads == [ads[0]] + ads[1..];
    }
  }

  /** Every ad kept passes the status clause. */
  lemma FilterStatus(ads: seq<Ad>, advertisers: map<string, Advertiser>, filters: FilterState)
    ensures forall k :: 0 <= k < |FilterAds(ads, advertisers, filters)| ==>
              filters.status == AnyStatus || filters.status == OnlyStatus(FilterAds(ads, advertisers, filters)[k].status)
  {
    var r := FilterAds(ads, advertisers, filters);
    forall k | 0 <= k < |r| ensures filters.status == AnyStatus || filters.status == OnlyStatus(r[k].status) {
      StatusClause(r[k], filters.status);
    }
  }

  /** With a country chosen, every ad kept has an advertiser in the lookup,
      from that country. */
  lemma FilterCountry(ads: seq<Ad>, advertisers: map<string, Advertiser>, filters: FilterState)
    requires filters.country != AllCountries
    ensures forall k :: 0 <= k < |FilterAds(ads, advertisers, filters)| ==>
              && FilterAds(ads, advertisers, filters)[k].advertiserId in advertisers
              && advertisers[FilterAds(ads, advertisers, filters)[k].advertiserId].country == filters.country
  {
  }

  /** With only a status chosen, an ad is kept exactly when it has that
      status. */
  lemma FilterByStatusOnly(ads: seq<Ad>, advertisers: map<string, Advertiser>, filters: FilterState, status: AdStatus, ad: Ad)
    requires filters.query == "" && filters.country == AllCountries && filters.status == OnlyStatus(status)
    ensures ad in FilterAds(ads, advertisers, filters) <==> ad in ads && ad.status == status
  {
    FilterMembership(ads, advertisers, filters, ad);
    StatusClause(ad, filters.status);
  }

  /** With only a country chosen, an ad is kept exactly when its advertiser
      resolves and is from that country. */
  lemma FilterByCountryOnly(ads: seq<Ad>, advertisers: map<string, Advertiser>, filters: FilterState, ad: Ad)
    requires filters.query == "" && filters.status == AnyStatus
    ensures ad in FilterAds(ads, advertisers, filters) <==>
              && ad in ads
              && (filters.country == AllCountries
                  || (ad.advertiserId in advertisers && advertisers[ad.advertiserId].country == filters.country))
  {
    FilterMembership(ads, advertisers, filters, ad);
  }

  /** Only the query, country and status take part: the ad type and the two
      dates do not change the result. */
  lemma {:induction false} FilterIgnoresUnusedFields(ads: seq<Ad>, advertisers: map<string, Advertiser>, f: FilterState, g: FilterState)
    requires f.query == g.query && f.country == g.country && f.status == g.status
    ensures FilterAds(ads, advertisers, f) == FilterAds(ads, advertisers, g)
  {
    if ads != [] {
      FilterIgnoresUnusedFields(ads[1..], advertisers, f, g);
    }
  }

  /** Changing the query's letter case does not change the result. */
  lemma {:induction false} FilterCaseInsensitive(ads: seq<Ad>, advertisers: map<string, Advertiser>, filters: FilterState, query: string)
    requires ToLower(query) == ToLower(filters.query)
    ensures FilterAds(ads, advertisers, filters.(query := query)) == FilterAds(ads, advertisers, filters)
  {
    if ads != [] {
      FilterCaseInsensitive(ads[1..], advertisers, filters, query);
      var adv := Lookup(advertisers, ads[0].advertiserId);
      QueryClauseCaseInsensitive(ads[0], adv, query, filters.query);
    }
  }

  /** Filtering splits over concatenation. */
  lemma {:induction false} FilterAppend(a: seq<Ad>, b: seq<Ad>, advertisers: map<string, Advertiser>, filters: FilterState)
    ensures FilterAds(a + b, advertisers, filters) == FilterAds(a, advertisers, filters) + FilterAds(b, advertisers, filters)
  {
    if a != [] {
      assert (a + b)[1..] == a[1..] + b;
      FilterAppend(a[1..], b, advertisers, filters);
    } else {
      assert a + b == b;
    }
  }

  /** Filtering the result again changes nothing. */
  lemma {:induction false} FilterIdempotent(ads: seq<Ad>, advertisers: map<string, Advertiser>, filters: FilterState)
    ensures FilterAds(FilterAds(ads, advertisers, filters), advertisers, filters) == FilterAds(ads, advertisers, filters)
  {
    if ads != [] {
      FilterIdempotent(ads[1..], advertisers, filters);
      var rest := FilterAds(ads[1..], advertisers, filters);
      if Matches(ads[0], advertisers, filters) {
        assert ([ads[0]] + rest)[1..] == rest;
      }
    }
  }
}
