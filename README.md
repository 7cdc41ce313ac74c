# AdMiner ad library, modelled in Dafny

AdMiner is a browser dashboard for browsing ad creatives and advertiser profiles. The data is made up in memory at load: ten advertisers and fifty ads, each built from its index. The library tab filters the ads by keyword, country and status, and shows the ones kept as a grid of cards. Clicking a card opens a detail overlay. There, "Generate Tags" asks a generative-content service for extra tags. With no API key, and when the call fails, the service function falls back to fixed lists.

This project models that logic and proves what it promises:

- `Types` (types.dfy) holds the records and closed unions of `types.ts`. Every union (ad status, creative type, ad type, status filter, view) has a `Name()` giving its TypeScript literal, so comparing literals the way the source does is shown to be comparing values.
- `Strings` (strings.dfy) holds the string primitives the code relies on:
  - `toLowerCase` (ASCII);
  - `includes`, proved equivalent to "occurs at some position";
  - `trim`, over the full JavaScript whitespace set;
  - `split(',')` and the join that inverts it, both ways round;
  - the decimal rendering of a number in a template literal.
- `GeminiService` (gemini_service.dfy) is `generateAdTags`. The API key is an optional string. The network call is an oracle `Service` from `(title, body)` to an outcome: it threw, or it answered with an optional `text`.
- `FilterPanel` (filter_panel.dfy) holds `handleChange`, a copy of the filter record with one field replaced, and the three selectors' option lists.
- `MockData` (mock_data.dfy) holds `MOCK_ADVERTISERS`, `MOCK_ADS` and `advertisersMap`.
- `AdFilter` (ad_filter.dfy) is the `filteredAds` predicate and the order-keeping scan that applies it.
- `AdDetail` (ad_detail_modal.dfy) holds the detail overlay:
  - the class `AdDetailModal`, with the state `isTagging` and `generatedTags` and the tag-generation steps;
  - `allTags`;
  - the render guards.
- `App` (app.dfy) holds the class `AppState` (the view, filters and selected ad, plus the overlay they feed) and the card grid. It also has lemmas tying the mock data to the filter and to the form.

Two places where the code does something its authors evidently did not intend are under "## Findings".

## Model

| member | source | states |
|---|---|---|
| Types.AdStatusNameInjective | types.ts:22 | two ad statuses are equal exactly when their literals `'active'`/`'expired'` are |
| Types.StatusFilterNameInjective | types.ts:35 | the status filter's three literals are distinct, and `'all'` names only the sentinel, never an ad status |
| Types.AdTypeNameInjective | types.ts:29 | the five ad-type literals are pairwise distinct |
| Types.CreativeTypeNameInjective | types.ts:20 | the three creative-type literals `'image'`, `'video'`, `'carousel'` are pairwise distinct |
| Types.ViewNameInjective | types.ts:40 | the views `'library'` and `'dashboard'` have distinct literals |
| Strings.ToLowerIdempotent | App.tsx:59-64 | lower-casing a lower-cased string changes nothing |
| Strings.ContainsIsSubstring | App.tsx:62-64 | `s.includes(t)` holds exactly when `t` occurs in `s` at some position |
| Strings.ContainsLowered | App.tsx:59-64 | if `t` occurs in `s`, the lower-cased `t` occurs in the lower-cased `s` |
| Strings.Trim | services/geminiService.ts:31 | the result neither starts nor ends with JavaScript whitespace and is a contiguous slice of the input with only whitespace cut on either side |
| Strings.TrimAddsNothing | services/geminiService.ts:31 | trimming introduces no character, so a piece without a comma trims to a tag without one |
| Strings.TrimIdempotent | services/geminiService.ts:31 | trimming a trimmed string changes nothing |
| Strings.Split | services/geminiService.ts:31 | `split(',')` gives one more piece than there are commas, and no piece contains a comma |
| Strings.JoinSplit | services/geminiService.ts:31 | joining the split pieces with `','` gives back the original text |
| Strings.SplitJoin | services/geminiService.ts:31 | splitting the join of comma-free pieces gives back the pieces |
| Strings.NatToString | App.tsx:11-12 | the decimal rendering is a non-empty run of digits, a single digit exactly for numbers below 10 |
| Strings.NatToStringValue | App.tsx:11-12 | reading the rendering back as a decimal numeral, most significant digit first, gives the number |
| Strings.NatToStringInjective | App.tsx:11 | different numbers render differently, which is why the ids `adv_${i}` are distinct |
| GeminiService.GenerateAdTags | services/geminiService.ts:4-39 | the four branches: no key, a thrown call, an empty answer, split-and-trim; specified by GeminiService.NoKeyMakesNoCall, FailedCallFallback, EmptyResultIff, ResponseTags and AllTagsTrimmed |
| GeminiService.ParseTags | services/geminiService.ts:31 | one tag per comma-separated piece, with commas + 1 tags; every tag is trimmed and comma-free; pieces exist that join back to the text, with each tag the trim of its piece |
| GeminiService.NoKeyMakesNoCall | services/geminiService.ts:5-9 | with the key unset or empty, the result is exactly `["Mock Tag","AI Analysis","Creative"]` and does not depend on the service |
| GeminiService.FailedCallFallback | services/geminiService.ts:11-38 | when the call throws, the result is exactly `["API Error","Tagging Failed"]` and no error reaches the caller |
| GeminiService.FallbacksDistinct | services/geminiService.ts:34-38 | the missing-key and the failed-call fallbacks are different lists, of three and two tags |
| GeminiService.EmptyResultIff | services/geminiService.ts:29-33 | the result is `[]` exactly when a key is set, the call answers, and its text is absent or empty |
| GeminiService.ResponseTags | services/geminiService.ts:29-31 | a non-empty text gives commas + 1 tags, the k-th being the trim of the k-th piece of `split(',')` |
| GeminiService.AllTagsTrimmed | services/geminiService.ts:4-39 | on every branch, no returned tag starts or ends with whitespace |
| FilterPanel.HandleChange | components/FilterPanel.tsx:17-19 | the named field holds the new value, and every other field is as in the input record |
| FilterPanel.HandleChangeIdempotent | components/FilterPanel.tsx:18 | applying the same change twice is applying it once |
| FilterPanel.HandleChangeLastWins | components/FilterPanel.tsx:18 | of two changes to one field, the later decides the record |
| FilterPanel.HandleChangeCommutes | components/FilterPanel.tsx:18 | changes to different fields give the same record in either order |
| FilterPanel.HandleChangeNoOp | components/FilterPanel.tsx:18 | the new record equals the old one exactly when the field already held the value; the given record is a value and is never changed |
| FilterPanel.AdTypeOptionsExact | components/FilterPanel.tsx:21-27 | five ad-type options, `'all'` first; every `AdType` occurs exactly once, under its literal |
| FilterPanel.CountryOptionsExact | components/FilterPanel.tsx:51-56 | the country values are `ALL, US, BR, GB, CA, AU`, pairwise distinct |
| FilterPanel.StatusOptionsExact | components/FilterPanel.tsx:72-74 | the status values are `all, active, expired` in that order, and every status filter occurs exactly once |
| MockData.MockAdvertiser | App.tsx:10-19 | the i-th advertiser, field by field; its ids are distinct by MockData.MockAdvertiserIdsDistinct and its countries selector options by App.MockCountriesAreOptions |
| MockData.MockAdvertisers | App.tsx:10 | there are ten mock advertisers |
| MockData.MockAdvertiserIdsDistinct | App.tsx:11 | different indices give different advertiser ids |
| MockData.StartTimeWellFormed | App.tsx:31 | every start time is a `YYYY-MM-DDTHH:MM:SSZ` timestamp whose month is `i % 9 + 1` |
| MockData.EndTimeAsWrittenMalformed | App.tsx:32 | as written, an end time is malformed exactly when `i % 9 == 8`, and then it is `"2023-010-01T12:00:00Z"` |
| MockData.EndTimeAsWrittenAd8 | App.tsx:32 | ad 8's end time as written is `"2023-010-01T12:00:00Z"`, which is not a timestamp |
| MockData.EndTimeWellFormed | App.tsx:31-32 | with the month padded, every end time is a timestamp one month after the ad's start, and it equals the as-written one whenever that is well formed |
| MockData.EndTimeAsWritten | App.tsx:32 | the end time as the template writes it; specified by MockData.EndTimeAsWrittenMalformed |
| MockData.MockAd | App.tsx:21-35 | the i-th ad, field by field (end time padded); specified by MockData.MockAdInvariants and MockData.MockAdResolves |
| MockData.MockAdInvariants | App.tsx:24-33 | an ad is expired iff `i % 4 == 0`, exactly then it has an end time, `0 < min <= max` for its spend, and it belongs to advertiser `i % 10` |
| MockData.MockAds | App.tsx:21 | there are fifty mock ads |
| MockData.BuildIndex | App.tsx:36 | the map's keys are exactly the advertisers' ids, and each key maps to an advertiser in the list with that id |
| MockData.BuildIndexFinds | App.tsx:36 | with distinct ids, each advertiser is what its own id looks up |
| MockData.AdvertisersMap | App.tsx:36 | `advertisersMap` over the ten mock advertisers; specified by MockData.BuildIndex and MockData.AdvertiserIdResolves |
| MockData.AdvertiserIdResolves | App.tsx:36 | `advertisersMap` maps `adv_${j}` to the j-th mock advertiser |
| MockData.MockAdResolves | App.tsx:24-36 | every mock ad's advertiser id resolves, to advertiser `i % 10`, with country `['US','BR','GB','CA','AU'][(i % 10) % 5]` |
| AdFilter.MatchesQuery | App.tsx:59-64 | the query clause; specified by AdFilter.QueryClause and AdFilter.QueryClauseCaseInsensitive |
| AdFilter.MatchesCountry | App.tsx:66 | the country clause; specified by AdFilter.FilterCountry and AdFilter.FilterByCountryOnly |
| AdFilter.MatchesStatus | App.tsx:67 | the status clause on literals; specified by AdFilter.StatusClause |
| AdFilter.MatchesAdType | App.tsx:68-69 | the ad-type clause, always true; specified by AdFilter.FilterIgnoresUnusedFields |
| AdFilter.Matches | App.tsx:58-71 | the conjunction of the four clauses, with the advertiser looked up once; specified by AdFilter.FilterMembership |
| AdFilter.FilterAds | App.tsx:56-73 | no more ads come out than went in, and every ad kept is from the input and passes all four clauses |
| AdFilter.StatusClause | App.tsx:67 | the status clause on literals holds exactly when the filter is `'all'` or equals the ad's status |
| AdFilter.QueryClause | App.tsx:59-64 | a non-empty query keeps an ad exactly when its lower-cased form occurs in the lower-cased body, title or resolved advertiser's name |
| AdFilter.TitleFragmentMatches | App.tsx:59-64 | a query equal, up to letter case, to a fragment of the title keeps the ad |
| AdFilter.QueryClauseCaseInsensitive | App.tsx:59-64 | two queries with the same lower-cased form keep the same ads |
| AdFilter.FilterIsSubsequence | App.tsx:57 | the result is a subsequence of the input, with nothing reordered or duplicated |
| AdFilter.FilterCounts | App.tsx:57-72 | every occurrence of an accepted ad is kept and every occurrence of a rejected one dropped |
| AdFilter.FilterMembership | App.tsx:57-72 | an ad is in the result exactly when it is in the input and accepted |
| AdFilter.FilterDefaultsIsIdentity | App.tsx:56-72 | with query `''`, country `'ALL'` and status `'all'`, the result is the input unchanged, in order |
| AdFilter.FilterStatus | App.tsx:67 | every ad kept has the chosen status, unless the filter is `'all'` |
| AdFilter.FilterCountry | App.tsx:58-66 | with a country chosen, every ad kept has a resolvable advertiser from that country, so ads without one are excluded |
| AdFilter.FilterByStatusOnly | App.tsx:67 | with only a status chosen, an ad is kept iff it is in the input with that status |
| AdFilter.FilterByCountryOnly | App.tsx:58-66 | with only a country chosen, an ad is kept iff it is in the input and its advertiser resolves and is from that country |
| AdFilter.FilterIgnoresUnusedFields | App.tsx:68-71 | the result does not depend on the ad type or on either date |
| AdFilter.FilterCaseInsensitive | App.tsx:59-64 | changing the query's letter case does not change the result |
| AdFilter.FilterAppend | App.tsx:57 | filtering a concatenation is concatenating the filtered parts |
| AdFilter.FilterIdempotent | App.tsx:57-72 | filtering the result again changes nothing |
| AdDetail.AllTags | components/AdDetailModal.tsx:37 | `ad.tags` followed by `generatedTags`: the length is the sum, and the two parts are exactly the two lists |
| AdDetail.RenderTags | components/AdDetailModal.tsx:35-101 | nothing is rendered iff the ad or the advertiser is absent; otherwise the tags shown are `allTags`, the placeholder shows iff `allTags` is empty, and the button is disabled iff tagging |
| AdDetail.AdDetailModal.constructor | components/AdDetailModal.tsx:15-17 | a mounted overlay is not tagging and has no generated tags |
| AdDetail.AdDetailModal.ReceiveProps | App.tsx:127 | as mounted by the source, a new ad or advertiser keeps `isTagging` and `generatedTags` |
| AdDetail.AdDetailModal.ReceivePropsKeyed | App.tsx:127 | keyed on the ad's id, a different ad resets the overlay's state and the same ad keeps it |
| AdDetail.AdDetailModal.BeginTagging | components/AdDetailModal.tsx:21-22 | starting sets `isTagging` and clears `generatedTags`, and leaves the props as they were |
| AdDetail.AdDetailModal.FinishTagging | components/AdDetailModal.tsx:23-31 | on success the tags are the service's, on rejection `["Error generating tags"]`; either way `isTagging` ends false |
| AdDetail.AdDetailModal.HandleGenerateTags | components/AdDetailModal.tsx:19-32 | with no ad, nothing changes; otherwise the overlay ends idle, holding the settled tags |
| AdDetail.AdDetailModal.ClickGenerateTags | components/AdDetailModal.tsx:85-87 | the button acts only while the overlay is rendered and not tagging; otherwise the state is unchanged |
| AdDetail.StaleTagsAsWritten | App.tsx:127 | as mounted by the source, tags generated for one ad are shown after the next ad's own tags |
| AdDetail.FreshTagsKeyed | App.tsx:127 | with the overlay keyed on the ad, the next ad shows only its own tags |
| App.GridCards | App.tsx:116-120 | no more cards than ads; every card is for an input ad, paired with the advertiser its id resolves to |
| App.CardAds | App.tsx:116-120 | the ads the grid shows: one per card, the k-th being the k-th card's ad, proved through its recursive definition |
| App.GridCardsInOrder | App.tsx:116 | the cards' ads are a subsequence of the input, so the grid keeps the ads' order |
| App.GridCardsCounts | App.tsx:116-120 | every occurrence of an ad whose advertiser resolves gets exactly one card, and an ad whose advertiser does not resolve gets none |
| App.GridCardsComplete | App.tsx:117-119 | an ad has a card exactly when it is in the input and its advertiser resolves |
| App.GridSkipsNothing | App.tsx:117-118 | when every ad's advertiser resolves, there is a card for every ad, in order |
| App.DefaultFiltersShowAll | App.tsx:46-53 | the initial filters show all fifty mock ads, in order |
| App.DefaultFilters | App.tsx:46-53 | the initial filter record; specified by App.DefaultFiltersShowAll |
| App.MockGridShowsFiltered | App.tsx:112-120 | on the mock data, whatever the filters, the grid's ads are exactly the filtered ads, in order |
| App.MockGridSkipsNothing | App.tsx:116-120 | on the mock data, whatever the filters, every filtered ad gets its card: the skip branch never fires |
| App.MockCountriesAreOptions | App.tsx:15 | every mock advertiser's country is one of the country selector's options other than `'ALL'` |
| App.TwoAdScenarios | App.tsx:56-72 | of an active US ad "Sale" and an expired Brazilian ad "Jobs", query `"sale"` keeps only the first and country `"BR"` only the second |
| App.AppState.SelectedAdvertiser | App.tsx:83 | present exactly when an ad is selected and its advertiser id resolves; then it is the mock advertiser with that id |
| App.AppState.MainContent | App.tsx:112-124 | the library tab shows one card per filtered ad, in order, each with its resolved advertiser; the dashboard tab shows no grid |
| App.AppState.constructor | App.tsx:44-54 | the app starts on the library tab with the default filters, nothing selected, and an idle overlay with no generated tags |
| App.AppState.SetView | App.tsx:91-102 | the sidebar sets the view and nothing else |
| App.AppState.EditFilter | App.tsx:114 | the filters become the panel's edited copy; the view and the selection are unchanged |
| App.AppState.ViewDetails | App.tsx:75-77 | the ad is selected and the overlay gets it and its advertiser; its tag state is reset when the ad differs from the one before, and kept when it is the same |
| App.AppState.CloseModal | App.tsx:79-81 | nothing is selected and the overlay renders nothing; the tag state is reset if an ad was open, and kept otherwise |
| App.AppState.GenerateTags | components/AdDetailModal.tsx:19-32 | from a shown, idle overlay, the overlay ends idle, holding exactly `generateAdTags` of the selected ad; otherwise nothing changes |

## Left out

- JSX rendering, CSS classes and SVG icons. Only the tag section's content, placeholder and button state are modelled.
- components/AdCard.tsx and components/Dashboard.tsx are not part of this model. They are layout, and the dashboard's data is static.
- The `GoogleGenAI` client, the prompt text and the request (services/geminiService.ts:12-27) are I/O. They are the `Service` parameter. The call's outcome is abstract, and any exception, client construction included, is `CallFailed`.
- `process.env.API_KEY` is the `apiKey` parameter. The model reads it once, as if both reads saw the same value.
- `console.error` logging is left out. It does not change any result.
- Promises, `await` and the React hooks (`useState`, `useMemo`, `useCallback`): the overlay's start and finish are sequential steps. Nothing can happen between them, such as a second click or switching ads mid-call.
- `new Date(...).toLocaleDateString()`, the status emoji and `toUpperCase` of the creative type are locale-dependent presentation.
- Strings.ToLower: folds ASCII letters only, because full Unicode case mapping is not modelled. The mock data is ASCII.
- MockData.MockAd: builds an ad with the end time's month padded, as corrected under "## Findings". MockData.EndTimeAsWritten is the source's version.
- App.AppState.ViewDetails: uses the keyed overlay update, the correction under "## Findings", so a different ad resets the tag state. AdDetail.AdDetailModal.ReceiveProps is the source's behaviour, which keeps it.
- App.AppState.CloseModal: uses the keyed overlay update too, so closing an open ad resets `isTagging` and `generatedTags`. The source's unkeyed overlay keeps both, as AdDetail.AdDetailModal.ReceiveProps states.
- Types.SpendEstimate: its `min` and `max` are JavaScript numbers but are modelled as `int`. The mock data stores only integers, and nothing in the core does arithmetic on them.
- `dateFrom` and `dateTo` have no inputs in the form, so `FilterPanel.Edit` cannot produce them. The filter ignores them.

## Findings

| source | as written | input that shows it | evidently intended | confidence | as-written member | corrected member |
|---|---|---|---|---|---|---|
| App.tsx:32 | the end time's month is the literal `0` followed by `(i % 9) + 2` | ad 8 (also ad 44): `"2023-010-01T12:00:00Z"`, with a three-digit month | a two-digit month, `"2023-10-01T12:00:00Z"` | high, not executed | MockData.EndTimeAsWrittenMalformed | MockData.EndTimeWellFormed |
| App.tsx:127 | the overlay is mounted once, without a `key`, so `generatedTags` outlives the ad it was generated for | generate tags on ad A, close, open ad B: B shows its own tags followed by A's generated ones | each ad's overlay starts without generated tags | medium, not executed | AdDetail.StaleTagsAsWritten | AdDetail.FreshTagsKeyed |
