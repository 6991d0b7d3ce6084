# The News front-end: a Dafny model of its data rules

"The News" is a React front-end that shows news from several REST APIs. Most of
its code is rendering and network glue. Between the fetched data and the screen
sit a few small rules, and this project models and proves them in Dafny:

- reducing a category label such as `news/Business` to its readable name;
- de-duplicating autocomplete suggestions, plus the input's own small state;
- building one query per preference or per displayed category;
- folding the outcomes of those queries into loading and error flags and an
  article list;
- the preference modal's duplicate guard and callback dispatch;
- the preferences store's reducers, with storage kept as a ghost snapshot;
- the page counter and request parameters of the Category and Search pages;
- the pagination bar;
- the "time ago" text;
- the shaping done by the home page and its article cards.

JavaScript values are modelled explicitly:

- `undefined`/`null`/value is `Js.Nullable`, and an optional field is `Js.Option`.
- A query of the query library is `Articles.QueryOutcome`: `Pending`, `Failed` or
  `Succeeded(data)`.
- The query cache is a function from query key to outcome, passed to the hooks.
- Strings are `seq<char>`.
- `split`, `trim`, `slice`, `filter`, `flat`, `some` and template-literal number
  printing are functions in `Text` and `Seqs`, with their JavaScript edge cases:
  - `trim` removes the full ECMAScript whitespace set;
  - a negative `slice` end counts back from the length;
  - a negative number prints with a leading `-`.

Modules follow the source files:

| module | models |
|---|---|
| `CategoryLabel` | `extractCategoryLabel` |
| `InputAutocomplete` | `getUniqueLabels` and the autocomplete handlers |
| `ArticlesByPreferences` | `useArticlesByPreferences` |
| `ArticlesByDisplayedCategories` | `useArticlesByDisplayedCategories` |
| `Categories` | `useCategories` |
| `TimeAgo` | `timeAgo` |
| `PreferencesModal` | the preferences modal |
| `PreferencesSlice` | the preferences store |
| `CategoryPage` | the Category page |
| `SearchPage` | the Search page |
| `PaginationControl` | the pagination bar |
| `Home` | the home page |
| `PopularArticleCard` | the home page's article card |

The shared modules are `Js`, `Seqs`, `Text`, `Articles` and `DateOptions`.

Where the source changes state in place, the model does too:

- `getUniqueLabels` is a loop over a map. Its model `InputAutocomplete.GetUniqueLabels`
  is a method whose loop invariants prove it equal to the specification
  function `UniqueByKey`.
- The autocomplete's input, the store and the two pages' counters are classes
  whose methods update their fields.

## Model

| member | source | states |
|---|---|---|
| CategoryLabel.ExtractCategoryLabel | src/hooks/extractCategoryLabel.ts:1-6 | `undefined` exactly for a falsy label. `null` for a label without `/`. A string exactly when the second `/` segment exists and is not blank, and then it is that segment, untrimmed, with no `/` and not blank |
| CategoryLabel.LaterSegmentsIgnored | src/hooks/extractCategoryLabel.ts:3-4 | `"a/b/c"` gives `"b"` |
| CategoryLabel.EmptySecondSegmentIsNull | src/hooks/extractCategoryLabel.ts:4 | `"a/"` gives `null` |
| CategoryLabel.BlankSecondSegmentIsNull | src/hooks/extractCategoryLabel.ts:4 | `"a/  /b"` gives `null` |
| CategoryLabel.SegmentNotTrimmed | src/hooks/extractCategoryLabel.ts:4 | `"a/ b "` gives `" b "`: the segment is not trimmed |
| Text.Split | src/hooks/extractCategoryLabel.ts:3 | `split` on one character: at least one piece, and no piece contains the separator |
| Text.SplitPieces | src/hooks/extractCategoryLabel.ts:3-4 | there is more than one piece iff the separator occurs. With no separator the only piece is the string. Piece 0 is the text before the first separator, piece 1 the text up to the next one |
| Text.SplitAtFirst | src/hooks/extractCategoryLabel.ts:3 | splitting cuts at the first separator and splits the rest |
| Text.JoinSplit | src/hooks/extractCategoryLabel.ts:3 | joining the pieces with the separator gives back the string |
| Text.Trim | src/hooks/extractCategoryLabel.ts:4 | `trim()` is `""` exactly for a string of whitespace only |
| Text.TrimStart | src/hooks/extractCategoryLabel.ts:4 | the start half of `trim()`: the result is a suffix of the string, everything cut off is whitespace, and the result does not start with whitespace |
| Text.TrimEnd | src/hooks/extractCategoryLabel.ts:4 | the end half of `trim()`: the result is a prefix of the string, everything cut off is whitespace, and the result does not end with whitespace |
| Text.IntToString | src/utils/timeAgo.ts:10-17 | the text of an integer, as a template literal prints it: at least one character. For a negative number, a `-` and then the digits of the magnitude, which do not start with `0`. Otherwise the digits of the number, which start with `0` only for the text `"0"` |
| Text.DecimalRoundTrip | src/utils/timeAgo.ts:10-17 | reading back the decimal text of a number gives the number |
| Seqs.FilterAppend | src/hooks/useArticlesByPreferences.ts:68-71 | `filter` distributes over concatenation, so it keeps the input order |
| Seqs.FlattenAppend | src/hooks/useArticlesByPreferences.ts:66-67 | `flat` of a concatenation is the concatenation of the `flat`s |
| Seqs.MapAppend | src/hooks/useCategories.ts:15-18 | `map` distributes over concatenation |
| Seqs.Any | src/hooks/useArticlesByPreferences.ts:59-61 | `some` is true iff some element satisfies the predicate |
| Seqs.SliceEnd | src/hooks/useCategories.ts:23 | where `slice(0, end)` stops: `end` clamped to the length, and a negative `end` counts back from the length |
| Seqs.Filter | src/hooks/useArticlesByPreferences.ts:68-71 | `filter` keeps exactly the elements that satisfy the predicate, and the result is no longer than the input |
| Seqs.Map | src/hooks/useCategories.ts:15-18 | `map` gives one result per element, at the same index |
| Seqs.Flatten | src/hooks/useArticlesByPreferences.ts:66-67 | an element is in `flat()` iff it is in one of the inner lists |
| Seqs.SliceFromStart | src/hooks/useCategories.ts:23 | `slice(0, end)` has `SliceEnd(len, end)` elements, and they are the leading elements of the input |
| Js.OrEmpty | src/components/InputAutocomplete.tsx:80 | `label ?? ""`: a string is kept as it is; `undefined` and `null` become `""` |
| InputAutocomplete.UriKey | src/components/InputAutocomplete.tsx:24-25 | the key is the second `/` piece of `uri` when `uri` has a `/`, otherwise the whole `uri` (possibly `""`) |
| InputAutocomplete.UniqueByKey | src/components/InputAutocomplete.tsx:20-32 | the de-duplicated list is no longer than the input, and for a non-empty input it starts with the input's first suggestion |
| InputAutocomplete.GetUniqueLabels | src/components/InputAutocomplete.tsx:20-32 | the map-and-insertion-order loop returns exactly `UniqueByKey` of the input |
| InputAutocomplete.MapValues | src/components/InputAutocomplete.tsx:31 | `Array.from(map.values())`: one value per key of the insertion order, each the value stored under that key |
| InputAutocomplete.FirstIndexIsFirst | src/components/InputAutocomplete.tsx:26-28 | no suggestion before the first position of a key has that key |
| InputAutocomplete.UniqueKeepsFirsts | src/components/InputAutocomplete.tsx:26-28 | every kept suggestion is the input's first suggestion with that key |
| InputAutocomplete.UniqueKeepsOrder | src/components/InputAutocomplete.tsx:23-31 | the kept suggestions' first-occurrence positions strictly increase: the output is a subsequence of the input, ordered by first occurrence |
| InputAutocomplete.UniqueCoversKeys | src/components/InputAutocomplete.tsx:20-32 | every key of the input occurs in the output |
| InputAutocomplete.UniqueKeysDistinct | src/components/InputAutocomplete.tsx:26-28 | no two output suggestions share a key |
| InputAutocomplete.DistinctKeysUnchanged | src/components/InputAutocomplete.tsx:20-32 | a list whose keys are already distinct is returned unchanged |
| InputAutocomplete.UniqueByKeyIdempotent | src/components/InputAutocomplete.tsx:20-32 | de-duplicating twice equals de-duplicating once |
| InputAutocomplete.ClickedLabel | src/components/InputAutocomplete.tsx:76-80 | without `extractLabel`, the displayed field or `""` when it is nullish. With it, `""` exactly when `extractCategoryLabel` gives no string, otherwise that string, which contains no `/` |
| InputAutocomplete.UriOf | src/pages/Search.tsx:44-47 | `selected.uri`: absent for the initial `{}`, the suggestion's uri otherwise |
| InputAutocomplete.Autocomplete.constructor | src/components/InputAutocomplete.tsx:42-44 | the box starts empty and the dropdown closed |
| InputAutocomplete.Autocomplete.ShowsClearButton | src/components/InputAutocomplete.tsx:101-106 | the clear icon is shown iff the box holds at least one character |
| InputAutocomplete.Autocomplete.HandleInputChange | src/components/InputAutocomplete.tsx:70-73 | typing sets the text to the new value and opens the dropdown; the clear icon shows iff the new value is non-empty |
| InputAutocomplete.Autocomplete.HandleSuggestionClick | src/components/InputAutocomplete.tsx:75-83 | the text becomes `ClickedLabel`, the suggestion itself is forwarded, and the dropdown closes |
| InputAutocomplete.Autocomplete.HandleClearInput | src/components/InputAutocomplete.tsx:85-89 | the text becomes `""`, so the clear icon is hidden; `{ uri: "" }` is emitted, and the dropdown closes |
| InputAutocomplete.Autocomplete.UniqueSuggestions | src/components/InputAutocomplete.tsx:65-68 | without data the list is empty; otherwise it is the de-duplicated data |
| ArticlesByPreferences.QueryFor | src/hooks/useArticlesByPreferences.ts:25-54 | the key is `["articles", kind, uri, page]`. The uri goes into the parameter of its kind only. The count is 70 and the page is the given one |
| ArticlesByPreferences.QueriesOfKind | src/hooks/useArticlesByPreferences.ts:25-54 | one query per item of one kind, at the same index, each the `QueryFor` of that kind, uri and page |
| ArticlesByPreferences.PageOrDefault | src/hooks/useArticlesByPreferences.ts:21 | an omitted page is 1 |
| ArticlesByPreferences.PreferenceQueries | src/hooks/useArticlesByPreferences.ts:24-55 | there are `|categories| + |sources| + |authors|` queries: first the categories', then the sources', then the authors', each in list order |
| ArticlesByPreferences.AnyLoading | src/hooks/useArticlesByPreferences.ts:59-61 | true iff some outcome is pending |
| ArticlesByPreferences.AnyError | src/hooks/useArticlesByPreferences.ts:63 | true iff some outcome failed |
| ArticlesByPreferences.AllResults | src/hooks/useArticlesByPreferences.ts:66 | one data list per query, in order; `[]` for a query without data |
| ArticlesByPreferences.MergedArticles | src/hooks/useArticlesByPreferences.ts:65-71 | every merged article is a feed article: neither a duplicate nor without an image |
| ArticlesByPreferences.MergedMembership | src/hooks/useArticlesByPreferences.ts:65-71 | an article is in the list iff some successful query has it and it is neither a duplicate nor without an image |
| ArticlesByPreferences.AllResultsAppend | src/hooks/useArticlesByPreferences.ts:66 | the data lists of concatenated outcomes are the concatenated data lists |
| ArticlesByPreferences.MergedArticlesAppend | src/hooks/useArticlesByPreferences.ts:65-71 | the merged list of concatenated outcomes is the concatenation of the merged lists, so query order is kept |
| ArticlesByPreferences.MergedArticlesSingle | src/hooks/useArticlesByPreferences.ts:65-71 | one query contributes its filtered data in order, or nothing without data |
| ArticlesByPreferences.OutcomesOf | src/hooks/useArticlesByPreferences.ts:57 | one outcome per query, in query order, looked up by the query's key |
| ArticlesByPreferences.ReducedOutcomes | src/hooks/useArticlesByPreferences.ts:57-71 | for any query list: loading iff some query is pending; error iff some query failed; an article is merged iff it is a feed article that a successful query returned |
| ArticlesByPreferences.UseArticlesByPreferences | src/hooks/useArticlesByPreferences.ts:17-78 | loading iff some preference query is pending; error iff one failed; an article is listed iff a successful query has it and it is a feed article; the list is the merged list of the query outcomes |
| ArticlesByPreferences.QueryKeysDistinct | src/hooks/useArticlesByPreferences.ts:24-55 | keys of different kinds differ, and keys of one kind differ when the uris differ |
| ArticlesByPreferences.NoPreferencesNoArticles | src/hooks/useArticlesByPreferences.ts:24-71 | with three empty lists there are no queries, and the result is not loading, has no error and has no articles |
| ArticlesByDisplayedCategories.QueryFor | src/hooks/useArticlesByDisplayedCategories.ts:9-14 | the key is determined by the uri; the request has that `categoryUri`, count 12 and no other parameter |
| ArticlesByDisplayedCategories.CategoryQueries | src/hooks/useArticlesByDisplayedCategories.ts:9-14 | one query per displayed category, in order |
| ArticlesByDisplayedCategories.SectionOf | src/hooks/useArticlesByDisplayedCategories.ts:22-33 | a section iff the query succeeded. It carries the category's label and uri, and an article is in it iff the query returned it and it is a feed article |
| ArticlesByDisplayedCategories.Sections | src/hooks/useArticlesByDisplayedCategories.ts:21-35 | at most one section per category, and every section's label is truthy |
| ArticlesByDisplayedCategories.SectionsMembership | src/hooks/useArticlesByDisplayedCategories.ts:21-35 | a section is listed iff some category has a truthy label and a successful query; the section carries that category's label and uri and its data without duplicates or image-less articles |
| ArticlesByDisplayedCategories.SectionsAppend | src/hooks/useArticlesByDisplayedCategories.ts:21-35 | the sections of concatenated categories are the concatenated sections: category order is kept |
| ArticlesByDisplayedCategories.SectionsSingle | src/hooks/useArticlesByDisplayedCategories.ts:22-35 | one category gives a section iff its query succeeded and its label is truthy |
| ArticlesByDisplayedCategories.SectionResultsAreFeedArticles | src/hooks/useArticlesByDisplayedCategories.ts:24-35 | every article of a section is a feed article, and every section's label is truthy |
| ArticlesByDisplayedCategories.OutcomesOf | src/hooks/useArticlesByDisplayedCategories.ts:8-15 | one outcome per category, in order, looked up by the query's key |
| ArticlesByDisplayedCategories.UseArticlesByDisplayedCategories | src/hooks/useArticlesByDisplayedCategories.ts:5-38 | loading iff some category's query is pending; error iff one failed; the sections are those of the categories' outcomes |
| ArticlesByDisplayedCategories.SameUriSameResults | src/hooks/useArticlesByDisplayedCategories.ts:10 | two categories with the same uri share a key and so an outcome |
| Categories.Relabelled | src/hooks/useCategories.ts:15-18 | the label becomes `extractCategoryLabel(label)`; uri and parent uri are kept |
| Categories.LabelledCategories | src/hooks/useCategories.ts:13-20 | `[]` without data. Otherwise a category is kept iff it is a relabelled input category with a truthy label. Every kept label is a string, without `/` and not blank |
| Categories.LabelledMembership | src/hooks/useCategories.ts:13-20 | a category is listed iff it is the relabelling of an input category whose extracted label is a string |
| Categories.LabelledAppend | src/hooks/useCategories.ts:14-19 | relabelling and filtering a concatenation gives the concatenation: input order is kept |
| Categories.UseCategories | src/hooks/useCategories.ts:23 | a missing or zero `size` gives the whole list. A positive one gives the first `min(size, n)` entries. A negative one drops that many entries from the end |
| Categories.ListedLabelsReadable | src/hooks/useCategories.ts:17-23 | every returned label is a string, not blank and without `/` |
| TimeAgo.QuotientUnique | src/utils/timeAgo.ts:5 | `Math.floor(a / d)` is the `q` of any division `a = q*d + r` with `0 <= r < d` |
| TimeAgo.MultipleAtLeastDivisor | src/utils/timeAgo.ts:5-8 | a positive multiple of `d` is at least `d` |
| TimeAgo.DivDiv | src/utils/timeAgo.ts:5-8 | two successive floor divisions equal one floor division by the product |
| TimeAgo.DivBelow | src/utils/timeAgo.ts:10-16 | `floor(a / d) < n` iff `a < n*d` |
| TimeAgo.Bucket | src/utils/timeAgo.ts:5-18 | exactly one unit applies. Seconds iff the difference is under 60 000 ms, negative included. Minutes iff it is in [60 000, 3 600 000). Hours iff in [3 600 000, 86 400 000). Days otherwise. Each count is one floor division of the difference, and below the next unit's bound except for days. For a non-negative difference the count is non-negative |
| TimeAgo.TimeAgo | src/utils/timeAgo.ts:1-20 | the text is the printed count of `Bucket(now - date)` followed by " sec ago", " min ago", " h ago" or " days ago" |
| TimeAgo.FutureDateCountsNegativeSeconds | src/utils/timeAgo.ts:5-11 | a date 1.5 s in the future gives the count -2 in seconds |
| TimeAgo.PrintedCount | src/utils/timeAgo.ts:10-17 | for a past date, the text starts with the digits of the count |
| DateOptions.DateOptionsAt | src/constants/dateOptions.ts:1-9 | four options in order: "Any date" with no value; "In the last 24h" at `now` minus one day; "In the last week" at `now` minus 7 days; "In the last month" at `now` minus 30 days. A day is 86 400 000 ms. The three instants lie before `now`, each older than the one before |
| DateOptions.DateStart | src/pages/Category.tsx:28-30 | `dateStart` is present iff an option with a non-zero value is chosen, and then it is that value |
| DateOptions.OnlyAnyDateOmitsStart | src/pages/Search.tsx:33-45 | once the clock is past 30 days, only "Any date" leaves `dateStart` out |
| PreferencesModal.IsItemSelected | src/components/PreferencesModal.tsx:34-41 | true iff some item of that kind's list has the same uri |
| PreferencesModal.HandleSelect | src/components/PreferencesModal.tsx:43-61 | no callback iff the item is already selected. Otherwise the callback of its kind fires: sources and authors get the item unchanged; a category gets the item with its label replaced by `extractCategoryLabel(label)` and everything else kept |
| PreferencesModal.DispatchMatchesKind | src/components/PreferencesModal.tsx:51-60 | the callback that fires is the one of the item's kind, and it gets the item's uri |
| PreferencesModal.AppendingForwardedKeepsUrisDistinct | src/components/PreferencesModal.tsx:47-60 | appending each forwarded item to a list whose uris are distinct keeps them distinct |
| PreferencesModal.Chips | src/components/PreferencesModal.tsx:88-149 | one chip per selected item, in order. It shows the title, label or name for its kind. Its close icon removes that item's index |
| PreferencesSlice.OrEmptyList | src/store/preferences.store.ts:18-20 | a saved list is used as it is, a missing one is `[]` |
| PreferencesSlice.InitialState | src/store/preferences.store.ts:13-21 | each list is the saved one if present, else `[]`; with nothing saved all three are `[]` |
| PreferencesSlice.Snapshot | src/store/preferences.store.ts:23-37 | the saved object holds all three lists |
| PreferencesSlice.ReloadRestoresState | src/store/preferences.store.ts:13-25 | the initial state read from a saved snapshot is the state that was saved |
| PreferencesSlice.Reduce | src/store/preferences.store.ts:23-37 | each reducer replaces its own list with the payload and leaves the other two unchanged |
| PreferencesSlice.ReduceIdempotent | src/store/preferences.store.ts:23-37 | applying the same action twice equals applying it once |
| PreferencesSlice.ReducersOfDifferentListsCommute | src/store/preferences.store.ts:23-37 | reducers of two different lists commute |
| PreferencesSlice.PreferencesStore.constructor | src/store/preferences.store.ts:13-21 | the store starts in `InitialState(stored)` |
| PreferencesSlice.PreferencesStore.SetSources | src/store/preferences.store.ts:23-26 | the new state is `Reduce` of the old one, and the saved snapshot is the whole new state |
| PreferencesSlice.PreferencesStore.SetCategories | src/store/preferences.store.ts:27-33 | the new state is `Reduce` of the old one, and the saved snapshot is the whole new state |
| PreferencesSlice.PreferencesStore.SetAuthors | src/store/preferences.store.ts:34-37 | the new state is `Reduce` of the old one, and the saved snapshot is the whole new state |
| PreferencesSlice.PreferencesStore.Dispatch | src/store/preferences.store.ts:22-38 | a dispatched action runs its reducer |
| PaginationControl.Pagination | src/components/Pagination.tsx:15-24 | "Previous" is disabled iff the page is 1. "Next" is disabled iff `noMoreItems` is true. The number shown is the current page |
| PaginationControl.OnClick | src/components/Pagination.tsx:16-25 | both buttons run the one callback they are given |
| PaginationControl.AdvancePage | src/pages/Category.tsx:144-146 | `prev => prev + 1`: the page moves forward by exactly one |
| PaginationControl.Click | src/components/Pagination.tsx:14-30 | a click on a disabled button leaves the page; an enabled button runs `prev => prev + 1` |
| PaginationControl.PreviousAdvancesPage | src/components/Pagination.tsx:14-25 | away from page 1, "Previous" moves to the next page, exactly as an enabled "Next" does |
| PaginationControl.ClickNeverLowersPage | src/components/Pagination.tsx:14-30 | no click lowers the page |
| PaginationControl.NoMoreItems | src/pages/Category.tsx:140-143 | absent without data; true iff the unfiltered result count is below the page size |
| PaginationControl.GuardedPagination | src/pages/Category.tsx:137-148 | the bar iff the filtered list exists and is non-empty, and then it is the bar for the current page and `noMoreItems`; nothing otherwise |
| Articles.DataOf | src/pages/Category.tsx:33-37 | a query has data iff it succeeded |
| Articles.ListedArticles | src/pages/Category.tsx:59-63 | the filtered list exists iff there is data, is no longer than it, and holds exactly the results that are not duplicates and have a title |
| Articles.ListedArticlesNonEmpty | src/pages/Category.tsx:59-63 | the filtered list is non-empty iff some result is listed |
| CategoryPage.CategoryRequest | src/pages/Category.tsx:42-49 | `categoryUri` is `uri/category`. `dateStart` is present only for a chosen option with a value. The count is 50, the page the current one, and `sourceUri` the selected source's uri |
| CategoryPage.CategoryListing | src/pages/Category.tsx:106-130 | the skeleton iff loading and the error text iff failed. Otherwise the cards iff some result is listed, showing the filtered list, and "No results." iff none is |
| CategoryPage.CategoryPagination | src/pages/Category.tsx:137-148 | the bar iff some result is listed. "Next" is disabled iff the raw count is below 50. "Previous" is disabled iff the page is 1 |
| CategoryPage.HiddenBarOnUnlistedPage | src/pages/Category.tsx:117-148 | a page of duplicates only shows "No results." and no bar |
| CategoryPage.CategoryPageState.constructor | src/pages/Category.tsx:23-27 | page 1, no date, the source `{}` |
| CategoryPage.CategoryPageState.AdvancePage | src/pages/Category.tsx:144-146 | the page goes from p to p + 1; nothing else changes; the page stays at least 1 |
| CategoryPage.CategoryPageState.PressButton | src/pages/Category.tsx:137-148 | the new page is what `Click` says; nothing else changes |
| CategoryPage.CategoryPageState.ResetEffect | src/pages/Category.tsx:65-67 | a changed dependency sets the page to 1 |
| CategoryPage.CategoryPageState.SelectDate | src/pages/Category.tsx:65-88 | the date is chosen, and the page is reset to 1 when the date changed |
| CategoryPage.CategoryPageState.SelectSource | src/pages/Category.tsx:65-95 | the source is chosen, and the page is reset to 1 when the source changed |
| CategoryPage.CategoryPageState.Navigate | src/pages/Category.tsx:32-67 | new route parameters leave the page counter and the filters as they were |
| SearchPage.Keyword | src/pages/Search.tsx:49 | the keyword is sent iff `query` is present and non-empty, and then it is `query` |
| SearchPage.SearchRequest | src/pages/Search.tsx:43-50 | the selected category's and source's uris, `dateStart` only for a chosen option with a value, count 50, the current page and the keyword rule |
| SearchPage.SearchListingOf | src/pages/Search.tsx:98-118 | the skeleton iff loading. Nothing iff the query failed. "No results." iff no result is listed. Otherwise the cards show the filtered list |
| SearchPage.SearchPaginationAsWritten | src/pages/Search.tsx:120-131 | as written: the text "0" iff the filtered list is empty. The bar iff it is non-empty, and then it is the bar for the current page and `noMoreItems` |
| SearchPage.EmptySearchRendersZero | src/pages/Search.tsx:105-131 | results that are all filtered out show "No results." and a stray "0" |
| SearchPage.SearchPagination | src/pages/Search.tsx:120-131 | corrected: never "0". The bar iff some result is listed, with "Next" disabled iff the raw count is below 50 and "Previous" disabled iff the page is 1 |
| SearchPage.CorrectedGuardAgreesElsewhere | src/pages/Search.tsx:120-131 | the corrected and the written guard agree unless the filtered list is empty |
| SearchPage.SearchPageState.constructor | src/pages/Search.tsx:24-31 | page 1, no date, source and category `{}` |
| SearchPage.SearchPageState.AdvancePage | src/pages/Search.tsx:127-129 | the page goes from p to p + 1; nothing else changes |
| SearchPage.SearchPageState.PressButton | src/pages/Search.tsx:120-131 | the new page is what `Click` says; nothing else changes |
| SearchPage.SearchPageState.ResetEffect | src/pages/Search.tsx:61-64 | a changed dependency puts the page at 1, writing only when it is not 1 already |
| SearchPage.SearchPageState.SelectDate | src/pages/Search.tsx:61-79 | the date is chosen, and the page is reset to 1 when the date changed |
| SearchPage.SearchPageState.SelectSource | src/pages/Search.tsx:61-86 | the source is chosen, and the page is reset to 1 when the source changed |
| SearchPage.SearchPageState.SelectCategory | src/pages/Search.tsx:61-94 | the category is chosen and the page is not reset |
| SearchPage.SearchPageState.NewQuery | src/pages/Search.tsx:22-64 | a new `query` leaves the page counter and the filters as they were |
| Home.TopArticles | src/pages/Home.tsx:15-17 | no data gives none; otherwise the first `min(6, n)` results, in order |
| Home.Photos | src/pages/Home.tsx:25-27 | a URL is a photo iff some rendition of some medium has it |
| Home.PhotosAppend | src/pages/Home.tsx:25-27 | the photos of concatenated media are the concatenated photos: media order is kept |
| Home.PhotosSingle | src/pages/Home.tsx:25-27 | one medium contributes its renditions' URLs in order |
| Home.CardOf | src/pages/Home.tsx:20-28 | a card copies `id`, `title`, `abstract` and `url` and holds the flattened photos |
| Home.HomeCards | src/pages/Home.tsx:15-29 | no data gives no cards. Otherwise there are `min(6, n)` cards, and card i is made from result i |
| Home.ColSpanClass | src/pages/Home.tsx:43-50 | `col-span-2` iff the index is the first or the last, else `col-span-1` |
| Home.Layout | src/pages/Home.tsx:40-58 | one cell per card, in order, with the class of its index |
| Home.LayoutSpan | src/pages/Home.tsx:43-50 | with at least two cards, the cells take `n + 2` grid columns |
| Home.NarrowMiddle | src/pages/Home.tsx:43-50 | the first `k` cells of a layout take `k + 1` columns |
| Home.TopSixFillTwoRows | src/pages/Home.tsx:15-50 | with six or more results, the cards take exactly 8 columns |
| PopularArticleCard.BackgroundImage | src/components/PopularArticleCard.tsx:8 | `photos[2]` when there are more than two photos, else `""` |
| PopularArticleCard.ShownAbstract | src/components/PopularArticleCard.tsx:19-21 | up to 80 characters the abstract is shown unchanged; longer, it is 83 characters ending in "...". It is never longer than 83 and starts with the first `min(80, n)` characters of the abstract |
| PopularArticleCard.ShownAbstractIdempotent | src/components/PopularArticleCard.tsx:19-21 | shortening a shown abstract again changes nothing |

## Left out

- The REST clients (`src/apis/**`) are network I/O, so they are not modelled. Their wire format is left out too: the `props` nesting of `getArticles` and the `articles.results` envelope the pages read. A query's data is modelled as its list of results.
- The query library's scheduling, caching lifetimes and refetching are library behaviour. Outcomes are given as a function of the query key. A failed query is modelled without data, so data kept from an earlier success is not modelled.
- `localStorage` and redux-persist are browser I/O. Storage is the ghost field `saved` of `PreferencesSlice.PreferencesStore`, and a reload is `InitialState`. Malformed JSON in storage is not modelled.
- The debounce of the autocomplete input, the debounced text and the query's `enabled` gating are timers and library behaviour.
- Clocks are integer parameters: `now` in `TimeAgo.TimeAgo` and in `DateOptions.DateOptionsAt`.
- TimeAgo.TimeAgo: the parsing of the date string, its `NaN` cases and floating-point rounding are not modelled. The instant is an integer number of milliseconds, and `Math.floor(x / d)` is integer floor division.
- DateOptions.DateStart: the `yyyy-MM-dd` formatting by `date-fns` is not modelled; the request carries the chosen instant itself.
- `trim` uses the fixed ECMAScript whitespace set. Lengths count characters of `seq<char>`, not UTF-16 code units, so ShownAbstract's 80-character cut can differ from the source for text outside the Basic Multilingual Plane.
- Rendering, styling, routing and scroll listeners are not modelled: Header.tsx, SearchInput.tsx, FilterDropdown.tsx, ArticleCard.tsx, AsideArticleCard.tsx, ArrowScrolToUp.tsx, useScroll.ts, useScrollToShow.ts, the route table and the theme files. The autocomplete's dropdown markup is left out too.
- LoadingSkeleton.tsx depends on `getColSpanClass`, which is not part of this model.
- CategoryPage.CategoryPageState.ResetEffect and SearchPage.SearchPageState.ResetEffect: these effects run when a dependency changes by object identity. The model compares values instead, so re-emitting an equal but new object is not modelled. One example is a second `{ uri: "" }` from a clear. The render between a selection and its effect, which queries with the old page, is not modelled either.
- The query cache returns the same outcome for equal keys. Two displayed categories or two preferences with the same key therefore share an outcome, and different keys are not assumed to be related.
- The caller that appends forwarded preferences to the store is not part of this model. PreferencesModal.AppendingForwardedKeepsUrisDistinct states what such a caller would keep.

## Findings

| source | as written | input that shows it | evidently intended | confidence | as-written member | corrected member |
|---|---|---|---|---|---|---|
| src/pages/Search.tsx:120-131 | `{filteredArticles?.length && <Pagination .../>}`: when the filtered list is empty, the guard evaluates to the number 0, and React renders it as the text "0" | a search whose results are all duplicates or untitled, e.g. one result with `isDuplicate: true`: the page shows "No results." followed by "0" | show nothing, as the Category page does with `filteredArticles && filteredArticles?.length > 0` (src/pages/Category.tsx:137) | not executed | SearchPage.SearchPaginationAsWritten, SearchPage.EmptySearchRendersZero | SearchPage.SearchPagination |
