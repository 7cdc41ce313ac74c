/** The domain records of the ad library: advertisers, ad creatives and the
    filter form's state. The string-literal unions of the TypeScript types
    become closed datatypes; `Name()` gives back the literal each value
    stands for, so that comparisons the source makes on strings can be
    stated on the datatypes. */
module Types {

  /** `T | null` (and `T | undefined`). */
  datatype Option<+T> = None | Some(value: T)

  /** `'active' | 'expired'` */
  datatype AdStatus = Active | Expired {
    function Name(): string {
      match this
      case Active => "active"
      case Expired => "expired"
    }
  }

  /** `'image' | 'video' | 'carousel'` */
  datatype CreativeType = Image | Video | Carousel {
    function Name(): string {
      match this
      case Image => "image"
      case Video => "video"
      case Carousel => "carousel"
    }
  }

  /** `'all' | 'politics' | 'employment' | 'credit' | 'housing'` */
  datatype AdType = AllAdTypes | Politics | Employment | Credit | Housing {
    function Name(): string {
      match this
      case AllAdTypes => "all"
      case Politics => "politics"
      case Employment => "employment"
      case Credit => "credit"
      case Housing => "housing"
    }
  }

  /** `'all' | 'active' | 'expired'`: the two ad statuses plus the `'all'`
      sentinel. */
  datatype StatusFilter = AnyStatus | OnlyStatus(status: AdStatus) {
    function Name(): string {
      match this
      case AnyStatus => "all"
      case OnlyStatus(s) => s.Name()
    }
  }

  /** `'library' | 'dashboard'` */
  datatype View = Library | Dashboard {
    function Name(): string {
      match this
      case Library => "library"
      case Dashboard => "dashboard"
    }
  }

  /** The dollar amounts are JavaScript numbers; the mock data only ever
      stores integers in them. */
  datatype SpendEstimate = SpendEstimate(min: int, max: int, currency: string)

  datatype Advertiser = Advertiser(
    id: string,
    pageId: string,
    name: string,
    verified: bool,
    country: string,
    firstSeen: string,
    lastSeen: string,
    avatarUrl: string)

  /** An ad creative. `endTime` may be null; `startTime` is always present. */
  datatype Ad = Ad(
    id: string,
    adId: string,
    advertiserId: string,
    title: string,
    body: string,
    landingUrl: string,
    creativeType: CreativeType,
    mediaUrl: string,
    status: AdStatus,
    startTime: string,
    endTime: Option<string>,
    spend: SpendEstimate,
    tags: seq<string>)

  datatype FilterState = FilterState(
    query: string,
    country: string,
    adType: AdType,
    status: StatusFilter,
    dateFrom: string,
    dateTo: string)

  /** The country selector's "every country" sentinel. */
  const AllCountries: string := "ALL"

  /** Two ad statuses are the same exactly when their literals are: the
      source's `===` on status strings is equality on `AdStatus`. */
  lemma AdStatusNameInjective(a: AdStatus, b: AdStatus)
    ensures a.Name() == b.Name() <==> a == b
  {
  }

  /** The filter's literals are distinct, and `'all'` is no ad status. */
  lemma StatusFilterNameInjective(f: StatusFilter, g: StatusFilter)
    ensures f.Name() == g.Name() <==> f == g
    ensures f.Name() == "all" <==> f == AnyStatus
  {
  }

  lemma AdTypeNameInjective(t: AdType, u: AdType)
    ensures t.Name() == u.Name() <==> t == u
  {
  }

  lemma CreativeTypeNameInjective(t: CreativeType, u: CreativeType)
    ensures t.Name() == u.Name() <==> t == u
  {
  }

  lemma ViewNameInjective(v: View, w: View)
    ensures v.Name() == w.Name() <==> v == w
  {
  }
}
