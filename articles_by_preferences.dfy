/** `useArticlesByPreferences`: one article query per preferred category, source
    and author, reduced to a loading flag, an error flag and one article list. */
module ArticlesByPreferences {
  import opened Js
  import opened Seqs
  import opened Articles
  import opened InputAutocomplete

  const PAGE_SIZE := 70

  /** The second component of a query key. */
  datatype PreferenceKind = CategoriesKind | SourcesKind | AuthorsKind

  /** The key `["articles", kind, uri, page]`. */
  datatype QueryKey = QueryKey(kind: PreferenceKind, uri: string, page: int)

  datatype PreferenceQuery = PreferenceQuery(key: QueryKey, request: ArticleRequest)

  /** The hook's result. */
  datatype PreferredArticles = PreferredArticles(
    preferredArticles: seq<Article>,
    isPreferredArticlesLoading: bool,
    hasError: bool)

  /** The query for preference `uri` of kind `kind`: the URI goes into the
      parameter that matches the kind. */
  function QueryFor(kind: PreferenceKind, uri: string, page: int): (q: PreferenceQuery)
    ensures q.key == QueryKey(kind, uri, page)
    ensures q.request.articlesCount == Some(PAGE_SIZE) && q.request.articlesPage == Some(page)
    ensures q.request.categoryUri == (if kind == CategoriesKind then Some(uri) else None)
    ensures q.request.sourceUri == (if kind == SourcesKind then Some(uri) else None)
    ensures q.request.authorUri == (if kind == AuthorsKind then Some(uri) else None)
    ensures q.request.keyword.None? && q.request.dateStart.None?
  {
    var request := NoParameters.(articlesCount := Some(PAGE_SIZE), articlesPage := Some(page));
    PreferenceQuery(
      QueryKey(kind, uri, page),
      match kind
      case CategoriesKind => request.(categoryUri := Some(uri))
      case SourcesKind => request.(sourceUri := Some(uri))
      case AuthorsKind => request.(authorUri := Some(uri)))
  }

  /** `items.map(...)` for one kind. */
  function QueriesOfKind(kind: PreferenceKind, items: seq<Suggestion>, page: int): (qs: seq<PreferenceQuery>)
    ensures |qs| == |items|
    ensures forall i :: 0 <= i < |items| ==> qs[i] == QueryFor(kind, items[i].uri, page)
  {
    if items == [] then []
    else [QueryFor(kind, items[0].uri, page)] + QueriesOfKind(kind, items[1..], page)
  }

  /** `page = 1`: the default of an omitted page. */
  function PageOrDefault(page: Option<int>): (p: int)
    ensures page.None? ==> p == 1
    ensures page.Some? ==> p == page.value
  {
    if page.Some? then page.value else 1
  }

  /** The query list: the categories' queries, then the sources', then the
      authors', each in list order. */
  function PreferenceQueries(categories: seq<Suggestion>, sources: seq<Suggestion>, authors: seq<Suggestion>,
                             page: Option<int>): (qs: seq<PreferenceQuery>)
    ensures |qs| == |categories| + |sources| + |authors|
    ensures forall i :: 0 <= i < |categories| ==>
      qs[i] == QueryFor(CategoriesKind, categories[i].uri, PageOrDefault(page))
    ensures forall i :: 0 <= i < |sources| ==>
      qs[|categories| + i] == QueryFor(SourcesKind, sources[i].uri, PageOrDefault(page))
    ensures forall i :: 0 <= i < |authors| ==>
      qs[|categories| + |sources| + i] == QueryFor(AuthorsKind, authors[i].uri, PageOrDefault(page))
  {
    var p := PageOrDefault(page);
    QueriesOfKind(CategoriesKind, categories, p)
      + QueriesOfKind(SourcesKind, sources, p)
      + QueriesOfKind(AuthorsKind, authors, p)
  }

  /** `articleQueries.some(query => query.isLoading)`. */
  function AnyLoading(outcomes: seq<QueryOutcome<seq<Article>>>): (b: bool)
    ensures b <==> exists i :: 0 <= i < |outcomes| && outcomes[i].Pending?
  {
    Any(outcomes, IsPending)
  }

  /** `articleQueries.some(query => query.isError)`. */
  function AnyError(outcomes: seq<QueryOutcome<seq<Article>>>): (b: bool)
    ensures b <==> exists i :: 0 <= i < |outcomes| && outcomes[i].Failed?
  {
    Any(outcomes, IsFailed)
  }

  /** The data of each query, in query order; a query without data contributes
      nothing (the `article &&` test drops the `undefined` that `flat` keeps). */
  function AllResults(outcomes: seq<QueryOutcome<seq<Article>>>): (rs: seq<seq<Article>>)
    ensures |rs| == |outcomes|
    ensures forall i :: 0 <= i < |outcomes| ==> rs[i] == ResultsOf(outcomes[i])
  {
    if outcomes == [] then []
    else [ResultsOf(outcomes[0])] + AllResults(outcomes[1..])
  }

  /** The merged list: the concatenated data, without duplicates and without
      articles lacking an image. */
  function MergedArticles(outcomes: seq<QueryOutcome<seq<Article>>>): (r: seq<Article>)
    ensures forall j :: 0 <= j < |r| ==> IsFeedArticle(r[j])
  {
    Filter(Flatten(AllResults(outcomes)), IsFeedArticle)
  }

  /** An article is merged iff it is a feed article that some successful query
      returned. */
  lemma MergedMembership(outcomes: seq<QueryOutcome<seq<Article>>>)
    ensures forall a :: a in MergedArticles(outcomes) ==> IsFeedArticle(a)
    ensures forall a :: a in MergedArticles(outcomes) <==>
      IsFeedArticle(a) && exists i :: 0 <= i < |outcomes| && outcomes[i].Succeeded? && a in outcomes[i].data
  {
    var all := AllResults(outcomes);
    assert forall i :: 0 <= i < |outcomes| ==> all[i] == ResultsOf(outcomes[i]);
  }

  /** The data lists of concatenated outcomes are the concatenated data lists. */
  lemma AllResultsAppend(a: seq<QueryOutcome<seq<Article>>>, b: seq<QueryOutcome<seq<Article>>>)
    ensures AllResults(a + b) == AllResults(a) + AllResults(b)
  {
    var l, r := AllResults(a + b), AllResults(a) + AllResults(b);
    assert |l| == |r|;
    forall i | 0 <= i < |l| ensures l[i] == r[i] {
      assert (a + b)[i] == if i < |a| then a[i] else b[i - |a|];
    }
  }

  /** The merged list is built query by query: the list for a concatenation of
      outcomes is the concatenation of their lists. */
  lemma {:induction false} MergedArticlesAppend(a: seq<QueryOutcome<seq<Article>>>, b: seq<QueryOutcome<seq<Article>>>)
    ensures MergedArticles(a + b) == MergedArticles(a) + MergedArticles(b)
  {
    AllResultsAppend(a, b);
    FlattenAppend(AllResults(a), AllResults(b));
    FilterAppend(Flatten(AllResults(a)), Flatten(AllResults(b)), IsFeedArticle);
  }

  /** One query's contribution: its kept data in order, or nothing while it has
      no data. */
  lemma MergedArticlesSingle(o: QueryOutcome<seq<Article>>)
    ensures MergedArticles([o]) == if o.Succeeded? then Filter(o.data, IsFeedArticle) else []
  {
    assert AllResults([o]) == [ResultsOf(o)];
    assert Flatten([ResultsOf(o)]) == ResultsOf(o) + Flatten([]);
    assert ResultsOf(o) + [] == ResultsOf(o);
  }

  /** What `useQueries` returns: one outcome per query, in query order, looked up
      by key in `outcomeOf`, which stands for the query cache. */
  function OutcomesOf(qs: seq<PreferenceQuery>, outcomeOf: QueryKey -> QueryOutcome<seq<Article>>): (os: seq<QueryOutcome<seq<Article>>>)
    ensures |os| == |qs|
    ensures forall i :: 0 <= i < |qs| ==> os[i] == outcomeOf(qs[i].key)
  {
    seq(|qs|, i requires 0 <= i < |qs| => outcomeOf(qs[i].key))
  }

  /** The hook: the flags and the list are reduced from the outcomes of the
      preference queries. */
  function UseArticlesByPreferences(categories: seq<Suggestion>, sources: seq<Suggestion>, authors: seq<Suggestion>,
                                    page: Option<int>, outcomeOf: QueryKey -> QueryOutcome<seq<Article>>): (r: PreferredArticles)
    ensures var qs := PreferenceQueries(categories, sources, authors, page);
      && (r.isPreferredArticlesLoading <==> exists i :: 0 <= i < |qs| && outcomeOf(qs[i].key).Pending?)
      && (r.hasError <==> exists i :: 0 <= i < |qs| && outcomeOf(qs[i].key).Failed?)
      && (forall a :: a in r.preferredArticles <==>
            IsFeedArticle(a) && exists i :: 0 <= i < |qs| && outcomeOf(qs[i].key).Succeeded? && a in outcomeOf(qs[i].key).data)
    ensures r.preferredArticles == MergedArticles(OutcomesOf(PreferenceQueries(categories, sources, authors, page), outcomeOf))
  {
    var qs := PreferenceQueries(categories, sources, authors, page);
    var outcomes := OutcomesOf(qs, outcomeOf);
    ReducedOutcomes(qs, outcomeOf);
    PreferredArticles(MergedArticles(outcomes), AnyLoading(outcomes), AnyError(outcomes))
  }

  /** The flags and the list reduced from the outcomes of any query list. */
  lemma ReducedOutcomes(qs: seq<PreferenceQuery>, outcomeOf: QueryKey -> QueryOutcome<seq<Article>>)
    ensures var outcomes := OutcomesOf(qs, outcomeOf);
      && (AnyLoading(outcomes) <==> exists i :: 0 <= i < |qs| && outcomeOf(qs[i].key).Pending?)
      && (AnyError(outcomes) <==> exists i :: 0 <= i < |qs| && outcomeOf(qs[i].key).Failed?)
      && (forall a :: a in MergedArticles(outcomes) <==>
            IsFeedArticle(a) && exists i :: 0 <= i < |qs| && outcomeOf(qs[i].key).Succeeded? && a in outcomeOf(qs[i].key).data)
  {
    var outcomes := OutcomesOf(qs, outcomeOf);
    assert forall i :: 0 <= i < |qs| ==> outcomes[i] == outcomeOf(qs[i].key);
    MergedMembership(outcomes);
  }

  /** Query keys are distinct across kinds, and within a kind they are distinct
      as soon as the URIs are. */
  lemma QueryKeysDistinct(categories: seq<Suggestion>, sources: seq<Suggestion>, authors: seq<Suggestion>,
                          page: Option<int>, i: nat, j: nat)
    requires var qs := PreferenceQueries(categories, sources, authors, page); i < j < |qs|
    requires forall a, b :: 0 <= a < b < |categories| ==> categories[a].uri != categories[b].uri
    requires forall a, b :: 0 <= a < b < |sources| ==> sources[a].uri != sources[b].uri
    requires forall a, b :: 0 <= a < b < |authors| ==> authors[a].uri != authors[b].uri
    ensures var qs := PreferenceQueries(categories, sources, authors, page); qs[i].key != qs[j].key
  {
    var c, s := |categories|, |sources|;
    if j < c {
    } else if j < c + s {
      if i >= c { assert sources[i - c].uri != sources[j - c].uri; }
    } else {
      if i >= c + s { assert authors[i - c - s].uri != authors[j - c - s].uri; }
    }
  }

  /** Without preferences nothing is fetched, loading or failed, and the list is
      empty, whatever the cache holds. */
  lemma NoPreferencesNoArticles(page: Option<int>, outcomeOf: QueryKey -> QueryOutcome<seq<Article>>)
    ensures PreferenceQueries([], [], [], page) == []
    ensures UseArticlesByPreferences([], [], [], page, outcomeOf) == PreferredArticles([], false, false)
  {
  }
}
