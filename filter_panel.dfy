/** The filter toolbar: its one event handler, which copies the filter
    record with the edited field replaced, and the option lists of its three
    selectors. */
module FilterPanel {
  import opened Types
  import opened Strings

  /** The fields of `FilterState`, as named by the form elements' `name`. */
  datatype Field = QueryField | CountryField | AdTypeField | StatusField | DateFromField | DateToField

  /** What a field holds. */
  datatype FieldValue = TextValue(text: string) | AdTypeValue(adType: AdType) | StatusValue(status: StatusFilter)

  /** A change event from one of the four inputs, carrying the element's
      `name` (as the constructor) and its new `value`. The selects for ad
      type and status can only produce one of their options' values. */
  datatype Edit = EditQuery(query: string) | EditCountry(country: string)
                | EditAdType(adType: AdType) | EditStatus(status: StatusFilter)
  {
    function Target(): Field {
      match this
      case EditQuery(_) => QueryField
      case EditCountry(_) => CountryField
      case EditAdType(_) => AdTypeField
      case EditStatus(_) => StatusField
    }

    function NewValue(): FieldValue {
      match this
      case EditQuery(q) => TextValue(q)
      case EditCountry(c) => TextValue(c)
      case EditAdType(t) => AdTypeValue(t)
      case EditStatus(s) => StatusValue(s)
    }
  }

  /** `filters[field]`. */
  function Get(filters: FilterState, field: Field): FieldValue {
    match field
    case QueryField => TextValue(filters.query)
    case CountryField => TextValue(filters.country)
    case AdTypeField => AdTypeValue(filters.adType)
    case StatusField => StatusValue(filters.status)
    case DateFromField => TextValue(filters.dateFrom)
    case DateToField => TextValue(filters.dateTo)
  }

  /** Two filter records that agree on every field are the same record. */
  lemma FieldsDetermineRecord(a: FilterState, b: FilterState)
    requires forall field :: Get(a, field) == Get(b, field)
    ensures a == b
  {
    assert Get(a, QueryField) == Get(b, QueryField);
    assert Get(a, CountryField) == Get(b, CountryField);
    assert Get(a, AdTypeField) == Get(b, AdTypeField);
    assert Get(a, StatusField) == Get(b, StatusField);
    assert Get(a, DateFromField) == Get(b, DateFromField);
    assert Get(a, DateToField) == Get(b, DateToField);
  }

  /** `handleChange`: `{ ...filters, [name]: value }`, a new record in which
      the named field holds the new value and every other field is as
      before. */
  function HandleChange(filters: FilterState, edit: Edit): (r: FilterState)
    ensures forall field :: Get(r, field) == if field == edit.Target() then edit.NewValue() else Get(filters, field)
  {
    match edit
    case EditQuery(q) => filters.(query := q)
    case EditCountry(c) => filters.(country := c)
    case EditAdType(t) => filters.(adType := t)
    case EditStatus(s) => filters.(status := s)
  }

  /** Applying the same edit twice is applying it once. */
  lemma HandleChangeIdempotent(filters: FilterState, edit: Edit)
    ensures HandleChange(HandleChange(filters, edit), edit) == HandleChange(filters, edit)
  {
    var once := HandleChange(filters, edit);
    FieldsDetermineRecord(HandleChange(once, edit), once);
  }

  /** Of two edits to the same field, the later one wins. */
  lemma HandleChangeLastWins(filters: FilterState, first: Edit, second: Edit)
    requires first.Target() == second.Target()
    ensures HandleChange(HandleChange(filters, first), second) == HandleChange(filters, second)
  {
    FieldsDetermineRecord(HandleChange(HandleChange(filters, first), second), HandleChange(filters, second));
  }

  /** Edits to different fields can be applied in either order. */
  lemma HandleChangeCommutes(filters: FilterState, e1: Edit, e2: Edit)
    requires e1.Target() != e2.Target()
    ensures HandleChange(HandleChange(filters, e1), e2) == HandleChange(HandleChange(filters, e2), e1)
  {
    FieldsDetermineRecord(HandleChange(HandleChange(filters, e1), e2), HandleChange(HandleChange(filters, e2), e1));
  }

  /** The result equals the input record exactly when the field already held
      the new value: otherwise the handler produces a different record and
      the one it was given is left as it was. */
  lemma HandleChangeNoOp(filters: FilterState, edit: Edit)
    ensures HandleChange(filters, edit) == filters <==> Get(filters, edit.Target()) == edit.NewValue()
  {
    if Get(filters, edit.Target()) == edit.NewValue() {
      FieldsDetermineRecord(HandleChange(filters, edit), filters);
    } else {
      assert Get(HandleChange(filters, edit), edit.Target()) != Get(filters, edit.Target());
    }
  }

  // ---------------------------------------------------------------------
  // The selectors' options

  datatype SelectOption<T> = SelectOption(value: T, display: string)

  function Values<T>(options: seq<SelectOption<T>>): (vs: seq<T>)
    ensures |vs| == |options|
    ensures forall k :: 0 <= k < |options| ==> vs[k] == options[k].value
  {
    if options == [] then [] else [options[0].value] + Values(options[1..])
  }

  /** `adTypeOptions`. */
  function AdTypeOptions(): seq<SelectOption<AdType>> {
    [ SelectOption(AllAdTypes, "All Ads"),
      SelectOption(Politics, "Politics & Issues"),
      SelectOption(Employment, "Employment"),
      SelectOption(Credit, "Credit"),
      SelectOption(Housing, "Housing") ]
  }

  /** The country selector's options, `'ALL'` first. */
  function CountryOptions(): seq<SelectOption<string>> {
    [ SelectOption(AllCountries, "All Countries"),
      SelectOption("US", "United States"),
      SelectOption("BR", "Brazil"),
      SelectOption("GB", "United Kingdom"),
      SelectOption("CA", "Canada"),
      SelectOption("AU", "Australia") ]
  }

  /** The status selector's options. */
  function StatusOptions(): seq<SelectOption<StatusFilter>> {
    [ SelectOption(AnyStatus, "All Statuses"),
      SelectOption(OnlyStatus(Active), "Active"),
      SelectOption(OnlyStatus(Expired), "Expired") ]
  }

  /** The ad-type options list every `AdType` exactly once, `'all'` first,
      and their values are the literals of the type. */
  lemma AdTypeOptionsExact()
    ensures |AdTypeOptions()| == 5 && AdTypeOptions()[0].value == AllAdTypes
    ensures forall t: AdType :: Occurrences(Values(AdTypeOptions()), t) == 1
    ensures forall k :: 0 <= k < |AdTypeOptions()| ==>
              AdTypeOptions()[k].value.Name() in ["all", "politics", "employment", "credit", "housing"]
  {
    var vs := Values(AdTypeOptions());
    assert vs == [AllAdTypes, Politics, Employment, Credit, Housing];
    forall t: AdType ensures Occurrences(vs, t) == 1 {
      assert t in vs by {
        match t
        case AllAdTypes => assert vs[0] == t;
        case Politics => assert vs[1] == t;
        case Employment => assert vs[2] == t;
        case Credit => assert vs[3] == t;
        case Housing => assert vs[4] == t;
      }
      OccursOnce(vs, t);
    }
  }

  /** The status options list every `StatusFilter` exactly once, `'all'`
      first, each under its literal. */
  lemma StatusOptionsExact()
    ensures |StatusOptions()| == 3 && StatusOptions()[0].value == AnyStatus
    ensures forall s: StatusFilter :: Occurrences(Values(StatusOptions()), s) == 1
    ensures Values(StatusOptions())[0].Name() == "all"
         && Values(StatusOptions())[1].Name() == "active"
         && Values(StatusOptions())[2].Name() == "expired"
  {
    var vs := Values(StatusOptions());
    assert vs == [AnyStatus, OnlyStatus(Active), OnlyStatus(Expired)];
    forall s: StatusFilter ensures Occurrences(vs, s) == 1 {
      assert s in vs by {
        match s
        case AnyStatus => assert vs[0] == s;
        case OnlyStatus(Active) => assert vs[1] == s;
        case OnlyStatus(Expired) => assert vs[2] == s;
      }
      OccursOnce(vs, s);
    }
  }

  /** The country options are `ALL, US, BR, GB, CA, AU`, each once. */
  lemma CountryOptionsExact()
    ensures Values(CountryOptions()) == ["ALL", "US", "BR", "GB", "CA", "AU"]
    ensures forall i, j :: 0 <= i < j < |CountryOptions()| ==> CountryOptions()[i].value != CountryOptions()[j].value
  {
  }
}
