/** The top-level view: the current tab, the filter record, the selected ad
    and the detail overlay it feeds; the grid of cards the library tab shows;
    and the facts that tie the mock data to the filter and the form. */
module App {
  import opened Types
  import opened Strings
  import opened MockData
  import opened AdFilter
  import FilterPanel
  import GeminiService
  import opened AdDetail

  /** The initial filter record. */
  function DefaultFilters(): FilterState {
    FilterState(query := "", country := AllCountries, adType := AllAdTypes, status := AnyStatus, dateFrom := "", dateTo := "")
  }

  /** A card in the grid: an ad and its resolved advertiser. */
  datatype Card = Card(ad: Ad, advertiser: Advertiser)

  /** The grid: one card per ad whose advertiser resolves; any other ad is
      skipped. */
  function GridCards(ads: seq<Ad>, advertisers: map<string, Advertiser>): (cards: seq<Card>)
    ensures |cards| <= |ads|
    ensures forall k :: 0 <= k < |cards| ==>
              cards[k].ad in ads && Lookup(advertisers, cards[k].ad.advertiserId) == Some(cards[k].advertiser)
  {
    if ads == [] then []
    else
      var rest := GridCards(ads[1..], advertisers);
      match Lookup(advertisers, ads[0].advertiserId)
      case None => rest
      case Some(advertiser) => [Card(ads[0], advertiser)] + rest
  }

  /** The ads the cards show, in grid order. */
  function CardAds(cards: seq<Card>): (ads: seq<Ad>)
    ensures |ads| == |cards|
    ensures forall k :: 0 <= k < |cards| ==> ads[k] == cards[k].ad
  {
    if cards == [] then [] else [cards[0].ad] + CardAds(cards[1..])
  }

  /** The grid keeps the ads' order: its ads are a subsequence of the
      input. */
  lemma {:induction false} GridCardsInOrder(ads: seq<Ad>, advertisers: map<string, Advertiser>)
    ensures IsSubsequence(CardAds(GridCards(ads, advertisers)), ads)
  {
    if ads != [] {
      GridCardsInOrder(ads[1..], advertisers);
      var rest := GridCards(ads[1..], advertisers);
      if ads[0].advertiserId in advertisers {
        var shown := CardAds(GridCards(ads, advertisers));
        assert shown[0] == ads[0];
        assert shown[1..] == CardAds(rest);
      } else {
        SubsequenceOfTail(CardAds(rest), ads);
      }
    }
  }

  /** One step of the grid: the first ad's card, if its advertiser
      resolves, then the rest of the grid. */
  lemma GridCardsStep(ads: seq<Ad>, advertisers: map<string, Advertiser>)
    requires ads != []
    ensures CardAds(GridCards(ads, advertisers)) ==
              (if ads[0].advertiserId in advertisers then [ads[0]] else []) + CardAds(GridCards(ads[1..], advertisers))
  {
    var rest := GridCards(ads[1..], advertisers);
    if ads[0].advertiserId in advertisers {
      var card := Card(ads[0], advertisers[ads[0].advertiserId]);
      assert GridCards(ads, advertisers) == [card] + rest;
      assert CardAds([card] + rest) == [ads[0]] + CardAds(rest);
    } else {
      assert GridCards(ads, advertisers) == rest;
      assert CardAds(rest) == [] + CardAds(rest);
    }
  }

  /** Every occurrence of an ad whose advertiser resolves gets a card, and
      an ad whose advertiser does not resolve gets none. */
  lemma {:induction false} GridCardsCounts(ads: seq<Ad>, advertisers: map<string, Advertiser>, ad: Ad)
    ensures multiset(CardAds(GridCards(ads, advertisers)))[ad] ==
              if ad.advertiserId in advertisers then multiset(ads)[ad] else 0
  {
    if ads != [] {
      GridCardsCounts(ads[1..], advertisers, ad);
      GridCardsStep(ads, advertisers);
      var head := if ads[0].advertiserId in advertisers then [ads[0]] else [];
      assert multiset(CardAds(GridCards(ads, advertisers))) ==
               multiset(head) + multiset(CardAds(GridCards(ads[1..], advertisers)));
      assert multiset(ads) == multiset([ads[0]]) + multiset(ads[1..]) by {
        assert ads == [ads[0]] + ads[1..];
      }
    }
  }

  /** An ad has a card exactly when it is in the input and its advertiser
      resolves. */
  lemma GridCardsComplete(ads: seq<Ad>, advertisers: map<string, Advertiser>, ad: Ad)
    ensures ad in CardAds(GridCards(ads, advertisers)) <==> ad in ads && ad.advertiserId in advertisers
  {
    GridCardsCounts(ads, advertisers, ad);
  }

  /** When every ad's advertiser resolves, the grid has a card for every ad,
      in order. */
  lemma {:induction false} GridSkipsNothing(ads: seq<Ad>, advertisers: map<string, Advertiser>)
    requires forall k :: 0 <= k < |ads| ==> ads[k].advertiserId in advertisers
    ensures |GridCards(ads, advertisers)| == |ads|
    ensures forall k :: 0 <= k < |ads| ==> GridCards(ads, advertisers)[k].ad == ads[k]
  {
    if ads != [] {
      GridSkipsNothing(ads[1..], advertisers);
    }
  }

  /** The initial filters show every mock ad, in order. */
  lemma DefaultFiltersShowAll()
    ensures FilterAds(MockAds(), AdvertisersMap(), DefaultFilters()) == MockAds()
  {
    FilterDefaultsIsIdentity(MockAds(), AdvertisersMap(), DefaultFilters());
  }

  /** Whatever the filters, the grid's skip branch never fires on the mock
      data: every filtered ad gets its card. */
  lemma MockGridSkipsNothing(filters: FilterState)
    ensures var shown := FilterAds(MockAds(), AdvertisersMap(), filters);
            && |GridCards(shown, AdvertisersMap())| == |shown|
            && forall k :: 0 <= k < |shown| ==> GridCards(shown, AdvertisersMap())[k].ad == shown[k]
  {
    var shown := FilterAds(MockAds(), AdvertisersMap(), filters);
    forall k | 0 <= k < |shown| ensures shown[k].advertiserId in AdvertisersMap() {
      MockAdInMockAdsResolves(shown[k]);
    }
    GridSkipsNothing(shown, AdvertisersMap());
  }

  /** On the mock data, the grid shows exactly the filtered ads, in order,
      each with its own advertiser. */
  lemma MockGridShowsFiltered(filters: FilterState)
    ensures var shown := FilterAds(MockAds(), AdvertisersMap(), filters);
            var cards := GridCards(shown, AdvertisersMap());
            && CardAds(cards) == shown
  {
    MockGridSkipsNothing(filters);
  }

  lemma MockAdInMockAdsResolves(ad: Ad)
    requires ad in MockAds()
    ensures ad.advertiserId in AdvertisersMap()
  {
    var i :| 0 <= i < |MockAds()| && MockAds()[i] == ad;
    MockAdResolves(i);
  }

  /** Every mock advertiser's country is one of the country selector's
      options other than `'ALL'`. */
  lemma MockCountriesAreOptions(i: nat)
    requires i < AdvertiserCount
    ensures MockAdvertiser(i).country in FilterPanel.Values(FilterPanel.CountryOptions())[1..]
  {
    FilterPanel.CountryOptionsExact();
    assert FilterPanel.Values(FilterPanel.CountryOptions())[1..] == CountryCycle;
  }

  /** What the main area shows. */
  datatype Content = LibraryContent(cards: seq<Card>) | DashboardContent

  class AppState {
    var view: View
    var filters: FilterState
    var selectedAd: Option<Ad>
    /** The overlay, mounted once beside the main area. */
    const modal: AdDetailModal

    /** The overlay is rendered with the selected ad and its advertiser. */
    ghost predicate Valid()
      reads this, modal
    {
      modal.ad == selectedAd && modal.advertiser == SelectedAdvertiser()
    }

    /** `selectedAd ? advertisersMap.get(selectedAd.advertiser_id) : null`:
        present exactly when an ad is selected and its advertiser id is a
        mock advertiser's, and then that advertiser. */
    function SelectedAdvertiser(): (r: Option<Advertiser>)
      reads this
      ensures r.Some? <==> selectedAd.Some? && selectedAd.value.advertiserId in AdvertisersMap()
      ensures r.Some? ==> r.value.id == selectedAd.value.advertiserId && r.value in MockAdvertisers()
    {
      if selectedAd.Some? then Lookup(AdvertisersMap(), selectedAd.value.advertiserId) else None
    }

    /** `filteredAds`. */
    function FilteredAds(): seq<Ad>
      reads this
    {
      FilterAds(MockAds(), AdvertisersMap(), filters)
    }

    /** The main area: on the library tab, one card per filtered ad, in
        order, each with the ad's own advertiser; on the dashboard tab, no
        grid. */
    function MainContent(): (content: Content)
      reads this
      ensures content.LibraryContent? <==> view == Library
      ensures content.LibraryContent? ==>
                && CardAds(content.cards) == FilteredAds()
                && forall k :: 0 <= k < |content.cards| ==>
                     Lookup(AdvertisersMap(), content.cards[k].ad.advertiserId) == Some(content.cards[k].advertiser)
    {
      MockGridShowsFiltered(filters);
      if view == Library then LibraryContent(GridCards(FilteredAds(), AdvertisersMap())) else DashboardContent
    }

    constructor ()
      ensures Valid() && fresh(modal)
      ensures view == Library && filters == DefaultFilters() && selectedAd == None
      ensures !modal.isTagging && modal.generatedTags == []
    {
      view := Library;
      filters := DefaultFilters();
      selectedAd := None;
      modal := new AdDetailModal(None, None);
    }

    /** The sidebar's two entries. */
    method SetView(v: View)
      requires Valid()
      modifies this
      ensures Valid()
      ensures view == v && filters == old(filters) && selectedAd == old(selectedAd)
    {
      view := v;
    }

    /** `onFiltersChange`, fed by the filter panel's `handleChange`: the
        filter record becomes the edited copy, nothing else changes. */
    method EditFilter(edit: FilterPanel.Edit)
      requires Valid()
      modifies this
      ensures Valid()
      ensures filters == FilterPanel.HandleChange(old(filters), edit)
      ensures view == old(view) && selectedAd == old(selectedAd)
    {
      filters := FilterPanel.HandleChange(filters, edit);
    }

    /** `handleViewDetails`: select the ad; the overlay, keyed on the ad,
        receives it and its advertiser. */
    method ViewDetails(ad: Ad)
      requires Valid()
      modifies this, modal
      ensures Valid()
      ensures selectedAd == Some(ad) && view == old(view) && filters == old(filters)
      ensures KeyOf(old(selectedAd)) != Some(ad.id) ==> !modal.isTagging && modal.generatedTags == []
      ensures KeyOf(old(selectedAd)) == Some(ad.id) ==>
                modal.isTagging == old(modal.isTagging) && modal.generatedTags == old(modal.generatedTags)
    {
      selectedAd := Some(ad);
      modal.ReceivePropsKeyed(selectedAd, SelectedAdvertiser());
    }

    /** `handleCloseModal`: nothing is selected and the overlay renders
        nothing; the keyed overlay drops the closed ad's tag state. */
    method CloseModal()
      requires Valid()
      modifies this, modal
      ensures Valid()
      ensures selectedAd == None && view == old(view) && filters == old(filters)
      ensures modal.View() == None
      ensures old(selectedAd).Some? ==> !modal.isTagging && modal.generatedTags == []
      ensures old(selectedAd).None? ==>
                modal.isTagging == old(modal.isTagging) && modal.generatedTags == old(modal.generatedTags)
    {
      selectedAd := None;
      modal.ReceivePropsKeyed(None, None);
    }

    /** "Generate Tags" in the overlay, with `generateAdTags` run against the
        given key and service: the button acts only while the overlay is
        shown and idle, and afterwards the overlay holds exactly the
        service's tags and is idle again. */
    method GenerateTags(apiKey: Option<string>, service: GeminiService.Service)
      requires Valid()
      modifies modal
      ensures Valid()
      ensures old(modal.View()).Some? && !old(modal.isTagging) ==>
                && selectedAd.Some?
                && !modal.isTagging
                && modal.generatedTags == GeminiService.GenerateAdTags(selectedAd.value.body, selectedAd.value.title, apiKey, service)
      ensures old(modal.View()).None? || old(modal.isTagging) ==>
                modal.isTagging == old(modal.isTagging) && modal.generatedTags == old(modal.generatedTags)
    {
      if selectedAd.Some? {
        var ad := selectedAd.value;
        modal.ClickGenerateTags(Resolved(GeminiService.GenerateAdTags(ad.body, ad.title, apiKey, service)));
      }
    }
  }

  // ---------------------------------------------------------------------
  // The two scenarios of the library's behaviour

  function ScenarioAdvertiser(id: string, country: string): Advertiser {
    Advertiser(id, "", id, false, country, "", "", "")
  }

  function ScenarioAd(id: string, advertiserId: string, title: string, status: AdStatus): Ad {
    Ad(id, "", advertiserId, title, "", "", Image, "", status, "", None, SpendEstimate(0, 0, "USD"), [])
  }

  /** An active US ad titled "Sale" and an expired Brazilian ad titled
      "Jobs": the query "sale" keeps only the first, the country "BR" only
      the second. */
  lemma TwoAdScenarios()
    ensures var a1 := ScenarioAd("1", "a", "Sale", Active);
            var a2 := ScenarioAd("2", "b", "Jobs", Expired);
            var m := map["a" := ScenarioAdvertiser("a", "US"), "b" := ScenarioAdvertiser("b", "BR")];
            && FilterAds([a1, a2], m, DefaultFilters().(query := "sale")) == [a1]
            && FilterAds([a1, a2], m, DefaultFilters().(country := "BR")) == [a2]
  {
    var a1 := ScenarioAd("1", "a", "Sale", Active);
    var a2 := ScenarioAd("2", "b", "Jobs", Expired);
    var m := map["a" := ScenarioAdvertiser("a", "US"), "b" := ScenarioAdvertiser("b", "BR")];
    assert ToLower("sale") == "sale";
    assert ToLower("Sale") == "sale";
    assert IsPrefix("sale", "sale");
    assert Contains(ToLower(a1.title), "sale");
    assert ToLower("Jobs") == "jobs";
    assert !Contains("jobs", "sale") by {
      assert "jobs"[..4] != "sale" by { assert "jobs"[..4][0] == 'j'; }
      assert "jobs"[1..] == "obs" && "obs"[1..] == "bs" && "bs"[1..] == "s" && "s"[1..] == "";
    }
    assert !Contains("", "sale");
    assert ToLower("b") == "b";
    assert !Contains("b", "sale");
    assert [a1, a2][1..] == [a2];
  }
}
