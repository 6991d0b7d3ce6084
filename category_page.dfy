/** The Category page: the articles of one category, filtered by date and
    source, fifty to a page. */
module CategoryPage {
  import opened Js
  import opened Seqs
  import opened Articles
  import opened DateOptions
  import opened InputAutocomplete
  import opened PaginationControl

  const PAGE_SIZE := 50

  /** The parameters of the page query, from the route's `uri` and `category`
      and the page's filters. */
  function CategoryRequest(uri: string, category: string, selectedDate: Option<DateOption>,
                           selectedSource: Option<Suggestion>, currentPage: int): (r: ArticleRequest)
    ensures r.categoryUri == Some(uri + "/" + category)
    ensures r.dateStart == DateStart(selectedDate)
    ensures r.articlesCount == Some(PAGE_SIZE) && r.articlesPage == Some(currentPage)
    ensures r.sourceUri == UriOf(selectedSource)
    ensures r.authorUri.None? && r.keyword.None?
  {
    ArticleRequest(
      categoryUri := Some(uri + "/" + category),
      sourceUri := UriOf(selectedSource),
      authorUri := None,
      keyword := None,
      dateStart := DateStart(selectedDate),
      articlesCount := Some(PAGE_SIZE),
      articlesPage := Some(currentPage))
  }

  /** What the article grid shows. */
  datatype Listing = Skeleton | LoadError | Cards(articles: seq<Article>) | NoResults

  /** The grid for the page query's outcome: the skeleton while loading, the
      error message on failure, the listed articles, or "No results.". */
  function CategoryListing(outcome: QueryOutcome<seq<Article>>): (l: Listing)
    ensures l.Skeleton? <==> outcome.Pending?
    ensures l.LoadError? <==> outcome.Failed?
    ensures l.Cards? <==> outcome.Succeeded? && exists a :: a in outcome.data && IsListedArticle(a)
    ensures l.Cards? ==> l.articles == ListedArticles(Some(outcome.data)).value && l.articles != []
    ensures l.NoResults? <==> outcome.Succeeded? && forall a :: a in outcome.data ==> !IsListedArticle(a)
  {
    match outcome
    case Pending => Skeleton
    case Failed => LoadError
    case Succeeded(results) =>
      var filtered := ListedArticles(Some(results)).value;
      ListedArticlesNonEmpty(results);
      if |filtered| > 0 then Cards(filtered) else NoResults
  }

  /** The bar under the grid, shown while the filtered list is non-empty;
      `noMoreItems` compares the unfiltered count with the page size. */
  function CategoryPagination(outcome: QueryOutcome<seq<Article>>, currentPage: int): (slot: PaginationSlot)
    ensures slot.Bar? <==> outcome.Succeeded? && exists a :: a in outcome.data && IsListedArticle(a)
    ensures slot.Bar? ==> (slot.view.nextDisabled <==> |outcome.data| < PAGE_SIZE)
    ensures slot.Bar? ==> (slot.view.previousDisabled <==> currentPage == 1)
  {
    var filtered := ListedArticles(DataOf(outcome));
    ListedArticlesNonEmpty(ResultsOf(outcome));
    GuardedPagination(filtered, currentPage, NoMoreItems(DataOf(outcome), PAGE_SIZE))
  }

  /** A full page of results that is all duplicates still leaves "Next"
      enabled, but the bar is hidden since nothing is listed. */
  lemma HiddenBarOnUnlistedPage(outcome: QueryOutcome<seq<Article>>, currentPage: int)
    requires outcome.Succeeded? && forall a :: a in outcome.data ==> a.isDuplicate
    ensures CategoryPagination(outcome, currentPage) == NothingRendered
    ensures CategoryListing(outcome) == NoResults
  {
  }

  /** The page's state: the route parameters, the page counter and the two
      filters. */
  class CategoryPageState {
    var uri: string
    var category: string
    var currentPage: int
    var selectedDate: Option<DateOption>
    var selectedSource: Option<Suggestion>

    /** The page counter never drops below 1. */
    predicate Valid()
      reads this
    {
      currentPage >= 1
    }

    /** The request of the current render. */
    function Request(): ArticleRequest
      reads this
    {
      CategoryRequest(uri, category, selectedDate, selectedSource, currentPage)
    }

    /** The first render: page 1, no date chosen, the source `{}`. */
    constructor (uri: string, category: string)
      ensures this.uri == uri && this.category == category
      ensures currentPage == 1 && selectedDate.None? && selectedSource.None?
      ensures Valid()
    {
      this.uri := uri;
      this.category := category;
      currentPage := 1;
      selectedDate := None;
      selectedSource := None;
    }

    /** The callback of both bar buttons: `setCurrentPage(prev => prev + 1)`. */
    method AdvancePage()
      requires Valid()
      modifies this
      ensures currentPage == old(currentPage) + 1
      ensures uri == old(uri) && category == old(category)
      ensures selectedDate == old(selectedDate) && selectedSource == old(selectedSource)
      ensures Valid()
    {
      currentPage := currentPage + 1;
    }

    /** A click on a bar button: a disabled button does nothing, an enabled one
      runs the callback. */
    method PressButton(button: PageButton, noMoreItems: Option<bool>)
      requires Valid()
      modifies this
      ensures currentPage == Click(button, old(currentPage), noMoreItems)
      ensures uri == old(uri) && category == old(category)
      ensures selectedDate == old(selectedDate) && selectedSource == old(selectedSource)
      ensures Valid()
    {
      var view := Pagination(currentPage, noMoreItems);
      var disabled := if button == Previous then view.previousDisabled else view.nextDisabled;
      if !disabled {
        AdvancePage();
      }
    }

    /** The reset effect on `[selectedDate, selectedSource]`: a changed filter
        puts the counter back to 1. */
    method ResetEffect(changed: bool)
      requires Valid()
      modifies this
      ensures currentPage == if changed then 1 else old(currentPage)
      ensures uri == old(uri) && category == old(category)
      ensures selectedDate == old(selectedDate) && selectedSource == old(selectedSource)
      ensures Valid()
    {
      if changed {
        currentPage := 1;
      }
    }

    /** `onOptionSelect` of the date dropdown, followed by the effect. */
    method SelectDate(option: DateOption)
      requires Valid()
      modifies this
      ensures selectedDate == Some(option)
      ensures currentPage == if old(selectedDate) != Some(option) then 1 else old(currentPage)
      ensures uri == old(uri) && category == old(category) && selectedSource == old(selectedSource)
      ensures Valid()
    {
      var changed := selectedDate != Some(option);
      selectedDate := Some(option);
      ResetEffect(changed);
    }

    /** `onSuggestionClick` of the source input, followed by the effect. */
    method SelectSource(source: Suggestion)
      requires Valid()
      modifies this
      ensures selectedSource == Some(source)
      ensures currentPage == if old(selectedSource) != Some(source) then 1 else old(currentPage)
      ensures uri == old(uri) && category == old(category) && selectedDate == old(selectedDate)
      ensures Valid()
    {
      var changed := selectedSource != Some(source);
      selectedSource := Some(source);
      ResetEffect(changed);
    }

    /** Following a link to another category keeps the page mounted: the route
        parameters change, the counter and the filters do not. */
    method Navigate(newUri: string, newCategory: string)
      requires Valid()
      modifies this
      ensures uri == newUri && category == newCategory
      ensures currentPage == old(currentPage)
      ensures selectedDate == old(selectedDate) && selectedSource == old(selectedSource)
      ensures Valid()
    {
      uri := newUri;
      category := newCategory;
    }
  }
}
