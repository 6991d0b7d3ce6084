/** `useArticlesByDisplayedCategories`: one article query per category shown on
    the home feed, reduced to a loading flag, an error flag and one section per
    category whose query has data. */
module ArticlesByDisplayedCategories {
  import opened Js
  import opened Seqs
  import opened Articles

  const CATEGORY_ARTICLES_COUNT := 12

  /** The hook's input record `{ label?: string | null; uri?: string }`;
      `None` is an absent `uri`. */
  datatype DisplayedCategory = DisplayedCategory(labelText: Nullable<string>, uri: Option<string>)

  /** The query for one category. Its key is `["articles", uri]`, so the key is
      determined by `uri`. */
  datatype CategoryQuery = CategoryQuery(keyUri: Option<string>, request: ArticleRequest)

  /** An entry of `articlesWithCategories`. */
  datatype CategorySection = CategorySection(categoryLabel: Nullable<string>, categoryUri: Option<string>, results: seq<Article>)

  /** The hook's result. */
  datatype CategoryArticles = CategoryArticles(
    articlesWithCategories: seq<CategorySection>,
    isResultsWithCategoriesLoading: bool,
    hasError: bool)

  function QueryFor(c: DisplayedCategory): (q: CategoryQuery)
    ensures q.keyUri == c.uri
    ensures q.request.categoryUri == c.uri && q.request.articlesCount == Some(CATEGORY_ARTICLES_COUNT)
    ensures q.request.sourceUri.None? && q.request.authorUri.None? && q.request.keyword.None?
    ensures q.request.dateStart.None? && q.request.articlesPage.None?
  {
    CategoryQuery(c.uri, NoParameters.(categoryUri := c.uri, articlesCount := Some(CATEGORY_ARTICLES_COUNT)))
  }

  /** `displayedCategories.map(...)`: one query per category, in order. */
  function CategoryQueries(cs: seq<DisplayedCategory>): (qs: seq<CategoryQuery>)
    ensures |qs| == |cs|
    ensures forall i :: 0 <= i < |cs| ==> qs[i] == QueryFor(cs[i])
  {
    if cs == [] then [] else [QueryFor(cs[0])] + CategoryQueries(cs[1..])
  }

  /** The map step for the category at some index and its query's outcome: a
      section for a successful query, `null` otherwise. */
  function SectionOf(c: DisplayedCategory, o: QueryOutcome<seq<Article>>): (e: Option<CategorySection>)
    ensures e.Some? <==> o.Succeeded?
    ensures e.Some? ==> e.value.categoryLabel == c.labelText && e.value.categoryUri == c.uri
    ensures e.Some? ==> forall a :: a in e.value.results <==> a in o.data && IsFeedArticle(a)
  {
    if o.Succeeded? then Some(CategorySection(c.labelText, c.uri, Filter(o.data, IsFeedArticle))) else None
  }

  /** `item?.categoryLabel` is truthy. */
  predicate Kept(e: Option<CategorySection>)
  {
    e.Some? && Truthy(e.value.categoryLabel)
  }

  /** The sections, index by index: the map step followed by the filter on the
      label. */
  function Sections(cs: seq<DisplayedCategory>, os: seq<QueryOutcome<seq<Article>>>): (r: seq<CategorySection>)
    requires |cs| == |os|
    ensures |r| <= |cs|
    ensures forall j :: 0 <= j < |r| ==> Truthy(r[j].categoryLabel)
  {
    if cs == [] then []
    else
      var e := SectionOf(cs[0], os[0]);
      (if Kept(e) then [e.value] else []) + Sections(cs[1..], os[1..])
  }

  /** A section is shown exactly for a category with a truthy label whose query
      succeeded; it carries that category's label and uri and its filtered data. */
  lemma {:induction false} SectionsMembership(cs: seq<DisplayedCategory>, os: seq<QueryOutcome<seq<Article>>>, e: CategorySection)
    requires |cs| == |os|
    ensures e in Sections(cs, os) <==>
      exists i :: 0 <= i < |cs| && os[i].Succeeded? && Truthy(cs[i].labelText)
        && e == CategorySection(cs[i].labelText, cs[i].uri, Filter(os[i].data, IsFeedArticle))
  {
    if cs != [] {
      SectionsMembership(cs[1..], os[1..], e);
      assert forall i :: 0 <= i < |cs| - 1 ==> cs[1..][i] == cs[i + 1] && os[1..][i] == os[i + 1];
      if e in Sections(cs[1..], os[1..]) {
        var i :| 0 <= i < |cs| - 1 && os[1..][i].Succeeded? && Truthy(cs[1..][i].labelText)
          && e == CategorySection(cs[1..][i].labelText, cs[1..][i].uri, Filter(os[1..][i].data, IsFeedArticle));
        assert os[i + 1].Succeeded? && cs[i + 1] == cs[1..][i];
      }
    }
  }

  /** The sections are built category by category: the sections of two runs of
      categories are those of the first followed by those of the second. */
  lemma {:induction false} SectionsAppend(cs1: seq<DisplayedCategory>, os1: seq<QueryOutcome<seq<Article>>>,
                                          cs2: seq<DisplayedCategory>, os2: seq<QueryOutcome<seq<Article>>>)
    requires |cs1| == |os1| && |cs2| == |os2|
    ensures Sections(cs1 + cs2, os1 + os2) == Sections(cs1, os1) + Sections(cs2, os2)
  {
    if cs1 == [] {
      assert cs1 + cs2 == cs2 && os1 + os2 == os2;
    } else {
      var e := SectionOf(cs1[0], os1[0]);
      var head := if Kept(e) then [e.value] else [];
      assert (cs1 + cs2)[0] == cs1[0] && (os1 + os2)[0] == os1[0];
      assert (cs1 + cs2)[1..] == cs1[1..] + cs2;
      assert (os1 + os2)[1..] == os1[1..] + os2;
      SectionsAppend(cs1[1..], os1[1..], cs2, os2);
      assert Sections(cs1 + cs2, os1 + os2) == head + (Sections(cs1[1..], os1[1..]) + Sections(cs2, os2));
      assert Sections(cs1, os1) == head + Sections(cs1[1..], os1[1..]);
    }
  }

  /** One category's contribution: a section with its label, its uri and its
      filtered data when its query succeeded and its label is truthy, else none. */
  lemma SectionsSingle(c: DisplayedCategory, o: QueryOutcome<seq<Article>>)
    ensures Sections([c], [o]) ==
      if o.Succeeded? && Truthy(c.labelText)
      then [CategorySection(c.labelText, c.uri, Filter(o.data, IsFeedArticle))]
      else []
  {
    assert [c][1..] == [] && [o][1..] == [];
  }

  /** Every article shown in a section is neither a duplicate nor without an image. */
  lemma SectionResultsAreFeedArticles(cs: seq<DisplayedCategory>, os: seq<QueryOutcome<seq<Article>>>, e: CategorySection, a: Article)
    requires |cs| == |os|
    requires e in Sections(cs, os) && a in e.results
    ensures IsFeedArticle(a) && Truthy(e.categoryLabel)
  {
    SectionsMembership(cs, os, e);
  }

  /** The outcome of each query in category order, looked up by the query's key. */
  function OutcomesOf(cs: seq<DisplayedCategory>, outcomeOf: Option<string> -> QueryOutcome<seq<Article>>): (os: seq<QueryOutcome<seq<Article>>>)
    ensures |os| == |cs|
    ensures forall i :: 0 <= i < |cs| ==> os[i] == outcomeOf(QueryFor(cs[i]).keyUri)
  {
    var qs := CategoryQueries(cs);
    seq(|qs|, i requires 0 <= i < |qs| => outcomeOf(qs[i].keyUri))
  }

  /** The hook, with the query cache given as `outcomeOf`. */
  function UseArticlesByDisplayedCategories(cs: seq<DisplayedCategory>,
                                            outcomeOf: Option<string> -> QueryOutcome<seq<Article>>): (r: CategoryArticles)
    ensures r.isResultsWithCategoriesLoading <==> exists i :: 0 <= i < |cs| && outcomeOf(cs[i].uri).Pending?
    ensures r.hasError <==> exists i :: 0 <= i < |cs| && outcomeOf(cs[i].uri).Failed?
    ensures r.articlesWithCategories == Sections(cs, OutcomesOf(cs, outcomeOf))
  {
    var os := OutcomesOf(cs, outcomeOf);
    assert forall i :: 0 <= i < |cs| ==> os[i] == outcomeOf(cs[i].uri);
    CategoryArticles(Sections(cs, os), Any(os, IsPending), Any(os, IsFailed))
  }

  /** Two displayed categories with the same uri share a query key, and hence
      an outcome: the same articles are shown in both sections. */
  lemma SameUriSameResults(cs: seq<DisplayedCategory>, outcomeOf: Option<string> -> QueryOutcome<seq<Article>>, i: nat, j: nat)
    requires i < |cs| && j < |cs| && cs[i].uri == cs[j].uri
    ensures CategoryQueries(cs)[i].keyUri == CategoryQueries(cs)[j].keyUri
    ensures OutcomesOf(cs, outcomeOf)[i] == OutcomesOf(cs, outcomeOf)[j]
  {
  }
}
