/** The data the library shows: ten advertisers and fifty ads generated from
    their index, and the id-to-advertiser lookup built from the former. */
module MockData {
  import opened Types
  import opened Strings

  const AdvertiserCount: nat := 10
  const AdCount: nat := 50

  /** `['US', 'BR', 'GB', 'CA', 'AU']`, cycled through by index. */
  const CountryCycle: seq<string> := ["US", "BR", "GB", "CA", "AU"]

  /** `adv_${i}`. */
  function AdvertiserId(i: nat): string {
    "adv_" + NatToString(i)
  }

  /** The `i`-th element of `MOCK_ADVERTISERS`. */
  function MockAdvertiser(i: nat): Advertiser
    requires i < AdvertiserCount
  {
    Advertiser(
      id := AdvertiserId(i),
      pageId := NatToString(1000 + i),
      name := "Advertiser " + [(65 + i) as char] + " Inc.",
      verified := i % 2 == 0,
      country := CountryCycle[i % 5],
      firstSeen := "2023-01-15T10:00:00Z",
      lastSeen := "2023-10-20T18:00:00Z",
      avatarUrl := "https://picsum.photos/seed/" + NatToString(1000 + i) + "/40/40")
  }

  function MockAdvertisers(): (advertisers: seq<Advertiser>)
    ensures |advertisers| == AdvertiserCount
  {
    seq(AdvertiserCount, i requires 0 <= i < AdvertiserCount => MockAdvertiser(i))
  }

  // ---------------------------------------------------------------------
  // Timestamps

  /** The shape `YYYY-MM-DDTHH:MM:SSZ` with a month from 1 to 12 and a day
      from 1 to 31. */
  predicate IsTimestamp(s: string) {
    && |s| == 20
    && s[4] == '-' && s[7] == '-' && s[10] == 'T' && s[13] == ':' && s[16] == ':' && s[19] == 'Z'
    && (forall k :: 0 <= k < 4 ==> IsDigit(s[k]))
    && IsDigit(s[5]) && IsDigit(s[6]) && IsDigit(s[8]) && IsDigit(s[9])
    && IsDigit(s[11]) && IsDigit(s[12]) && IsDigit(s[14]) && IsDigit(s[15])
    && IsDigit(s[17]) && IsDigit(s[18])
    && 1 <= Month(s) <= 12
    && 1 <= 10 * DigitValue(s[8]) + DigitValue(s[9]) <= 31
  }

  /** The two month digits of a timestamp-shaped string. */
  function Month(s: string): nat
    requires |s| >= 7 && IsDigit(s[5]) && IsDigit(s[6])
  {
    10 * DigitValue(s[5]) + DigitValue(s[6])
  }

  /** A two-digit, zero-padded numeral. */
  function TwoDigits(n: nat): (s: string)
    requires n < 100
    ensures |s| == 2 && IsDigit(s[0]) && IsDigit(s[1])
    ensures 10 * DigitValue(s[0]) + DigitValue(s[1]) == n
  {
    [DigitChar(n / 10), DigitChar(n % 10)]
  }

  /** `2023-0${(i % 9) + 1}-01T12:00:00Z`. */
  function StartTime(i: nat): string {
    "2023-0" + NatToString(i % 9 + 1) + "-01T12:00:00Z"
  }

  /** `end_time` as the source writes it: `2023-0${(i % 9) + 2}-01T12:00:00Z`
      for every fourth ad, else null. */
  function EndTimeAsWritten(i: nat): Option<string> {
    if i % 4 == 0 then Some("2023-0" + NatToString(i % 9 + 2) + "-01T12:00:00Z") else None
  }

  /** `end_time` with the month zero-padded to two digits. */
  function EndTime(i: nat): Option<string> {
    if i % 4 == 0 then Some("2023-" + TwoDigits(i % 9 + 2) + "-01T12:00:00Z") else None
  }

  lemma SingleDigit(n: nat)
    requires n < 10
    ensures NatToString(n) == [DigitChar(n)] && DigitValue(DigitChar(n)) == n
  {
  }

  /** Every start time is a timestamp. */
  lemma StartTimeWellFormed(i: nat)
    ensures IsTimestamp(StartTime(i))
    ensures Month(StartTime(i)) == i % 9 + 1
  {
    SingleDigit(i % 9 + 1);
  }

  /** As written, an end time is malformed exactly when the month would be
      10: the template's fixed `0` then precedes two digits and the month
      field has three. Ads 8 and 44 are the two that hit this. */
  lemma {:induction false} EndTimeAsWrittenMalformed(i: nat)
    requires EndTimeAsWritten(i).Some?
    ensures !IsTimestamp(EndTimeAsWritten(i).value) <==> i % 9 == 8
    ensures i % 9 == 8 ==> EndTimeAsWritten(i).value == "2023-010-01T12:00:00Z"
  {
    var s := EndTimeAsWritten(i).value;
    if i % 9 == 8 {
      assert NatToString(10) == NatToString(1) + [DigitChar(0)];
      SingleDigit(1);
      assert NatToString(10) == "10";
      assert |s| == 21;
    } else {
      SingleDigit(i % 9 + 2);
      assert |s| == 20;
    }
  }

  /** Ad 8 is the first such ad. */
  lemma EndTimeAsWrittenAd8()
    ensures EndTimeAsWritten(8) == Some("2023-010-01T12:00:00Z")
    ensures !IsTimestamp(EndTimeAsWritten(8).value)
  {
    EndTimeAsWrittenMalformed(8);
  }

  /** With the padding, every end time is a timestamp one month after the
      ad's start, and it agrees with the source wherever the source's is
      well formed. */
  lemma EndTimeWellFormed(i: nat)
    ensures EndTime(i).Some? ==>
              IsTimestamp(EndTime(i).value) && Month(EndTime(i).value) == Month(StartTime(i)) + 1
    ensures i % 9 != 8 ==> EndTime(i) == EndTimeAsWritten(i)
  {
    StartTimeWellFormed(i);
    if i % 9 != 8 {
      SingleDigit(i % 9 + 2);
      assert TwoDigits(i % 9 + 2) == ['0'] + NatToString(i % 9 + 2);
      assert "2023-" + TwoDigits(i % 9 + 2) == "2023-0" + NatToString(i % 9 + 2);
    }
  }

  // ---------------------------------------------------------------------
  // Ads

  /** The `i`-th element of `MOCK_ADS` (with the padded end time). */
  function MockAd(i: nat): Ad {
    Ad(
      /* id */ "ad_" + NatToString(i),
      /* ad_id */ "meta_ad_" + NatToString(2000 + i),
      /* advertiser_id */ AdvertiserId(i % AdvertiserCount),
      AdTitle(i),
      AdBody(i),
      /* landing_url */ "https://example.com",
      /* creative_type */ if i % 3 == 0 then Video else if i % 3 == 1 then Image else Carousel,
      MediaUrl(i),
      /* status */ if i % 4 == 0 then Expired else Active,
      StartTime(i),
      EndTime(i),
      SpendEstimate(100 * (i + 1), 500 * (i + 1), "USD"),
      AdTags(i))
  }

  function AdTitle(i: nat): string {
    "Amazing Product Offer " + NatToString(i + 1)
  }

  function AdBody(i: nat): string {
    "Check out our new line of products. This is creative number " + NatToString(i + 1)
    + " with a special discount just for you. Don't miss out! #specialoffer"
  }

  function MediaUrl(i: nat): string {
    if i % 3 == 0 then "https://dummy-media.s3.amazonaws.com/video.mp4"
    else "https://picsum.photos/seed/" + NatToString(i) + "/500/500"
  }

  function AdTags(i: nat): seq<string> {
    if i % 2 == 0 then ["E-commerce", "Promotion"] else ["Brand Awareness", "Lifestyle"]
  }

  /** Every fourth ad, starting with the first, is expired, and exactly
      those have an end time; every spend range is a positive interval; the
      ads cycle through the advertisers. */
  lemma MockAdInvariants(i: nat)
    ensures MockAd(i).status == Expired <==> i % 4 == 0
    ensures MockAd(i).endTime.Some? <==> MockAd(i).status == Expired
    ensures 0 < MockAd(i).spend.min <= MockAd(i).spend.max
    ensures MockAd(i).advertiserId == MockAdvertiser(i % AdvertiserCount).id
  {
  }

  function MockAds(): (ads: seq<Ad>)
    ensures |ads| == AdCount
  {
    seq(AdCount, i requires 0 <= i < AdCount => MockAd(i))
  }

  // ---------------------------------------------------------------------
  // `advertisersMap`

  /** `new Map(advertisers.map(a => [a.id, a]))`: later entries overwrite
      earlier ones with the same id. */
  function BuildIndex(advertisers: seq<Advertiser>): (m: map<string, Advertiser>)
    ensures forall id :: id in m <==> exists j :: 0 <= j < |advertisers| && advertisers[j].id == id
    ensures forall id :: id in m ==> m[id].id == id && m[id] in advertisers
  {
    if advertisers == [] then map[]
    else
      var init := advertisers[..|advertisers| - 1];
      var last := advertisers[|advertisers| - 1];
      var m := BuildIndex(init)[last.id := last];
      assert forall j :: 0 <= j < |init| ==> init[j] == advertisers[j];
      m
  }

  /** With distinct ids, each advertiser is what its id looks up. */
  lemma {:induction false} BuildIndexFinds(advertisers: seq<Advertiser>, j: nat)
    requires forall a, b :: 0 <= a < b < |advertisers| ==> advertisers[a].id != advertisers[b].id
    requires j < |advertisers|
    ensures BuildIndex(advertisers)[advertisers[j].id] == advertisers[j]
  {
    var n := |advertisers|;
    if j < n - 1 {
      var init := advertisers[..n - 1];
      assert init[j] == advertisers[j];
      BuildIndexFinds(init, j);
      assert advertisers[n - 1].id != advertisers[j].id;
    }
  }

  function AdvertisersMap(): map<string, Advertiser> {
    BuildIndex(MockAdvertisers())
  }

  lemma MockAdvertiserIdsDistinct(i: nat, j: nat)
    requires i < AdvertiserCount && j < AdvertiserCount && i != j
    ensures MockAdvertiser(i).id != MockAdvertiser(j).id
  {
    if MockAdvertiser(i).id == MockAdvertiser(j).id {
      assert AdvertiserId(i)[4..] == NatToString(i) && AdvertiserId(j)[4..] == NatToString(j);
      NatToStringInjective(i, j);
    }
  }

  /** Each advertiser's id looks up that advertiser. */
  lemma AdvertiserIdResolves(j: nat)
    requires j < AdvertiserCount
    ensures AdvertiserId(j) in AdvertisersMap()
    ensures AdvertisersMap()[AdvertiserId(j)] == MockAdvertiser(j)
  {
    var advs := MockAdvertisers();
    forall a, b | 0 <= a < b < |advs| ensures advs[a].id != advs[b].id {
      MockAdvertiserIdsDistinct(a, b);
    }
    BuildIndexFinds(advs, j);
    assert advs[j] == MockAdvertiser(j);
  }

  /** Every mock ad's advertiser id resolves, to advertiser `i % 10`, whose
      country is `CountryCycle[(i % 10) % 5]`: the grid never has to skip an ad. */
  lemma MockAdResolves(i: nat)
    ensures MockAd(i).advertiserId in AdvertisersMap()
    ensures AdvertisersMap()[MockAd(i).advertiserId] == MockAdvertiser(i % AdvertiserCount)
    ensures AdvertisersMap()[MockAd(i).advertiserId].country == CountryCycle[i % AdvertiserCount % 5]
  {
    var j := i % AdvertiserCount;
    AdvertiserIdResolves(j);
    MockAdInvariants(i);
  }
}
