/** The article records the news API returns, the parameters the front-end
    passes to `getArticles`, and the outcome of one query as the hooks see it. */
module Articles {
  import opened Js
  import opened Seqs

  /** The fields of an article that the front-end reads. `image` is `null` when
      the API has no picture. */
  datatype Article = Article(
    uri: string,
    title: string,
    url: string,
    dateTime: string,
    image: Option<string>,
    isDuplicate: bool)

  /** The parameters passed to `getArticles`; `None` is a parameter left out. */
  datatype ArticleRequest = ArticleRequest(
    categoryUri: Option<string>,
    sourceUri: Option<string>,
    authorUri: Option<string>,
    keyword: Option<string>,
    dateStart: Option<int>,
    articlesCount: Option<int>,
    articlesPage: Option<int>)

  const NoParameters := ArticleRequest(None, None, None, None, None, None, None)

  /** What a query has produced so far: still loading, failed, or data. */
  datatype QueryOutcome<+T> = Pending | Failed | Succeeded(data: T)

  /** `query.isLoading` and `query.isError`. */
  predicate IsPending<T>(o: QueryOutcome<T>) { o.Pending? }

  predicate IsFailed<T>(o: QueryOutcome<T>) { o.Failed? }

  /** The data of a query, `[]` while it has none. */
  function ResultsOf(o: QueryOutcome<seq<Article>>): seq<Article>
  {
    if o.Succeeded? then o.data else []
  }

  /** The `data` of a query as a page reads it: absent unless the query succeeded. */
  function DataOf<T>(o: QueryOutcome<T>): (d: Option<T>)
    ensures d.Some? <==> o.Succeeded?
    ensures d.Some? ==> d.value == o.data
  {
    if o.Succeeded? then Some(o.data) else None
  }

  /** The feed filter of the preference and category hooks: neither a duplicate
      nor without an image. */
  predicate IsFeedArticle(a: Article)
  {
    !a.isDuplicate && a.image.Some?
  }

  /** The listing filter of the Category and Search pages: neither a duplicate
      nor with an empty title. */
  predicate IsListedArticle(a: Article)
  {
    !a.isDuplicate && a.title != ""
  }

  /** `results.filter(article => !article.isDuplicate && article.title)` applied
      to the data of a page query, `undefined` while there is none. */
  function ListedArticles(data: Option<seq<Article>>): (r: Option<seq<Article>>)
    ensures r.Some? <==> data.Some?
    ensures r.Some? ==> |r.value| <= |data.value|
    ensures r.Some? ==> forall a :: a in r.value <==> a in data.value && IsListedArticle(a)
  {
    if data.Some? then Some(Filter(data.value, IsListedArticle)) else None
  }

  /** The filtered list is non-empty exactly when some result is listed. */
  lemma ListedArticlesNonEmpty(results: seq<Article>)
    ensures |ListedArticles(Some(results)).value| > 0 <==> exists a :: a in results && IsListedArticle(a)
  {
    var filtered := ListedArticles(Some(results)).value;
    if |filtered| > 0 {
      assert filtered[0] in filtered;
    }
  }
}
