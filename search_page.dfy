/** The Search page: the articles matching the `query` search parameter,
    filtered by date, source and category, fifty to a page. */
module SearchPage {
  import opened Js
  import opened Articles
  import opened DateOptions
  import opened InputAutocomplete
  import opened PaginationControl

  const PAGE_SIZE := 50

  /** `...(query ? { keyword: query } : {})`: the keyword is sent only for a
      non-empty `query`; `None` is the `null` of a missing parameter. */
  function Keyword(query: Option<string>): (k: Option<string>)
    ensures k.Some? <==> query.Some? && query.value != ""
    ensures k.Some? ==> k.value == query.value
  {
    if query.Some? && query.value != "" then query else None
  }

  /** The parameters of the page query. */
  function SearchRequest(query: Option<string>, selectedDate: Option<DateOption>, selectedSource: Option<Suggestion>,
                         selectedCategory: Option<Suggestion>, currentPage: int): (r: ArticleRequest)
    ensures r.categoryUri == UriOf(selectedCategory) && r.sourceUri == UriOf(selectedSource)
    ensures r.dateStart == DateStart(selectedDate)
    ensures r.keyword == Keyword(query)
    ensures r.articlesCount == Some(PAGE_SIZE) && r.articlesPage == Some(currentPage)
    ensures r.authorUri.None?
  {
    ArticleRequest(
      categoryUri := UriOf(selectedCategory),
      sourceUri := UriOf(selectedSource),
      authorUri := None,
      keyword := Keyword(query),
      dateStart := DateStart(selectedDate),
      articlesCount := Some(PAGE_SIZE),
      articlesPage := Some(currentPage))
  }

  /** What the article grid shows. A failed query leaves it empty: the page
      has no error branch. */
  datatype SearchListing = Skeleton | NoResults | Cards(articles: seq<Article>) | Empty

  function SearchListingOf(outcome: QueryOutcome<seq<Article>>): (l: SearchListing)
    ensures l.Skeleton? <==> outcome.Pending?
    ensures l.Empty? <==> outcome.Failed?
    ensures l.NoResults? <==> outcome.Succeeded? && forall a :: a in outcome.data ==> !IsListedArticle(a)
    ensures l.Cards? <==> outcome.Succeeded? && exists a :: a in outcome.data && IsListedArticle(a)
    ensures l.Cards? ==> l.articles == ListedArticles(Some(outcome.data)).value
  {
    match outcome
    case Pending => Skeleton
    case Failed => Empty
    case Succeeded(results) =>
      var filtered := ListedArticles(Some(results)).value;
      ListedArticlesNonEmpty(results);
      if |filtered| == 0 then NoResults else Cards(filtered)
  }

  /** The bar as the page writes it, `filteredArticles?.length && <Pagination />`:
      an empty filtered list makes the guard the number 0, which is rendered as
      the text "0". */
  function SearchPaginationAsWritten(filtered: Option<seq<Article>>, currentPage: int, noMoreItems: Option<bool>): (slot: PaginationSlot)
    ensures slot.ZeroText? <==> filtered == Some([])
    ensures slot.Bar? <==> filtered.Some? && filtered.value != []
    ensures slot.Bar? ==> slot.view == Pagination(currentPage, noMoreItems)
  {
    if filtered.None? then NothingRendered
    else if |filtered.value| == 0 then ZeroText
    else Bar(Pagination(currentPage, noMoreItems))
  }

  /** A search whose results are all filtered out shows "No results." and,
      below it, a stray "0". */
  lemma EmptySearchRendersZero(results: seq<Article>, currentPage: int)
    requires forall a :: a in results ==> !IsListedArticle(a)
    ensures SearchListingOf(Succeeded(results)) == NoResults
    ensures SearchPaginationAsWritten(ListedArticles(Some(results)), currentPage, NoMoreItems(Some(results), PAGE_SIZE)) == ZeroText
  {
    ListedArticlesNonEmpty(results);
  }

  /** The bar as intended, the Category page's guard: nothing for an empty list. */
  function SearchPagination(outcome: QueryOutcome<seq<Article>>, currentPage: int): (slot: PaginationSlot)
    ensures !slot.ZeroText?
    ensures slot.Bar? <==> outcome.Succeeded? && exists a :: a in outcome.data && IsListedArticle(a)
    ensures slot.Bar? ==> (slot.view.nextDisabled <==> |outcome.data| < PAGE_SIZE)
    ensures slot.Bar? ==> (slot.view.previousDisabled <==> currentPage == 1)
  {
    ListedArticlesNonEmpty(ResultsOf(outcome));
    GuardedPagination(ListedArticles(DataOf(outcome)), currentPage, NoMoreItems(DataOf(outcome), PAGE_SIZE))
  }

  /** The two guards agree except on an empty filtered list. */
  lemma CorrectedGuardAgreesElsewhere(outcome: QueryOutcome<seq<Article>>, currentPage: int)
    requires ListedArticles(DataOf(outcome)) != Some([])
    ensures SearchPagination(outcome, currentPage) ==
      SearchPaginationAsWritten(ListedArticles(DataOf(outcome)), currentPage, NoMoreItems(DataOf(outcome), PAGE_SIZE))
  {
  }

  /** The page's state: the search parameter, the page counter and the three
      filters. */
  class SearchPageState {
    var query: Option<string>
    var currentPage: int
    var selectedDate: Option<DateOption>
    var selectedSource: Option<Suggestion>
    var selectedCategory: Option<Suggestion>

    /** The page counter never drops below 1. */
    predicate Valid()
      reads this
    {
      currentPage >= 1
    }

    /** The request of the current render. */
    function Request(): ArticleRequest
      reads this
    {
      SearchRequest(query, selectedDate, selectedSource, selectedCategory, currentPage)
    }

    /** The first render: page 1, no date chosen, source and category `{}`. */
    constructor (query: Option<string>)
      ensures this.query == query
      ensures currentPage == 1 && selectedDate.None? && selectedSource.None? && selectedCategory.None?
      ensures Valid()
    {
      this.query := query;
      currentPage := 1;
      selectedDate := None;
      selectedSource := None;
      selectedCategory := None;
    }

    /** The callback of both bar buttons: `setCurrentPage(prev => prev + 1)`. */
    method AdvancePage()
      requires Valid()
      modifies this
      ensures currentPage == old(currentPage) + 1
      ensures query == old(query) && selectedDate == old(selectedDate)
      ensures selectedSource == old(selectedSource) && selectedCategory == old(selectedCategory)
      ensures Valid()
    {
      currentPage := currentPage + 1;
    }

    /** A click on a bar button: a disabled button does nothing, an enabled one
      runs the callback. */
    method PressButton(button: PageButton, noMoreItems: Option<bool>)
      requires Valid()
      modifies this
      ensures currentPage == Click(button, old(currentPage), noMoreItems)
      ensures query == old(query) && selectedDate == old(selectedDate)
      ensures selectedSource == old(selectedSource) && selectedCategory == old(selectedCategory)
      ensures Valid()
    {
      var view := Pagination(currentPage, noMoreItems);
      var disabled := if button == Previous then view.previousDisabled else view.nextDisabled;
      if !disabled {
        AdvancePage();
      }
    }

    /** The effect on `[selectedSource, selectedDate]`: when a dependency
        changed and the counter is not already 1, it is set to 1. */
    method ResetEffect(changed: bool)
      requires Valid()
      modifies this
      ensures currentPage == if changed then 1 else old(currentPage)
      ensures query == old(query) && selectedDate == old(selectedDate)
      ensures selectedSource == old(selectedSource) && selectedCategory == old(selectedCategory)
      ensures Valid()
    {
      if changed && currentPage != 1 {
        currentPage := 1;
      }
    }

    /** `onOptionSelect` of the date dropdown, followed by the effect. */
    method SelectDate(option: DateOption)
      requires Valid()
      modifies this
      ensures selectedDate == Some(option)
      ensures currentPage == if old(selectedDate) != Some(option) then 1 else old(currentPage)
      ensures query == old(query) && selectedSource == old(selectedSource) && selectedCategory == old(selectedCategory)
      ensures Valid()
    {
      var changed := selectedDate != Some(option);
      selectedDate := Some(option);
      ResetEffect(changed);
    }

    /** `onSuggestionClick` of the source input, followed by the effect. */
    method SelectSource(source: Suggestion)
      requires Valid()
      modifies this
      ensures selectedSource == Some(source)
      ensures currentPage == if old(selectedSource) != Some(source) then 1 else old(currentPage)
      ensures query == old(query) && selectedDate == old(selectedDate) && selectedCategory == old(selectedCategory)
      ensures Valid()
    {
      var changed := selectedSource != Some(source);
      selectedSource := Some(source);
      ResetEffect(changed);
    }

    /** `onSuggestionClick` of the category input: the category is not a
        dependency of the effect, so the counter stays where it was. */
    method SelectCategory(category: Suggestion)
      requires Valid()
      modifies this
      ensures selectedCategory == Some(category)
      ensures currentPage == old(currentPage)
      ensures query == old(query) && selectedDate == old(selectedDate) && selectedSource == old(selectedSource)
      ensures Valid()
    {
      selectedCategory := Some(category);
    }

    /** A new search from the header keeps the page mounted: the query changes,
        the counter and the filters do not. */
    method NewQuery(newQuery: Option<string>)
      requires Valid()
      modifies this
      ensures query == newQuery && currentPage == old(currentPage)
      ensures selectedDate == old(selectedDate)
      ensures selectedSource == old(selectedSource) && selectedCategory == old(selectedCategory)
      ensures Valid()
    {
      query := newQuery;
    }
  }
}
