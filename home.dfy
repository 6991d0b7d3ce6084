/** The home page: the six most viewed articles of the day, each with the URLs
    of all its photos, laid out with wide first and last cells. */
module Home {
  import opened Js
  import opened Seqs

  /** An entry of a medium's `media-metadata`: one rendition of the photo. */
  datatype MediaMetadata = MediaMetadata(url: string, format: string)

  datatype Media = Media(metadata: seq<MediaMetadata>)

  /** The fields of a most-popular result that the page reads. */
  datatype PopularResult = PopularResult(id: int, title: string, abstractText: string, url: string, media: seq<Media>)

  /** An entry of `filteredMostPopularArticles`; `abstractText` is the field
      `abstract`, a reserved word in Dafny. */
  datatype PopularCard = PopularCard(id: int, title: string, abstractText: string, url: string, photos: seq<string>)

  /** A cell of the grid: its class and its card. */
  datatype Cell = Cell(className: string, card: PopularCard)

  const TOP_COUNT := 6

  /** `mostPopular?.results.slice(0, 6)`. */
  function TopArticles(mostPopular: Option<seq<PopularResult>>): (top: Option<seq<PopularResult>>)
    ensures top.None? <==> mostPopular.None?
    ensures top.Some? ==> |top.value| == if |mostPopular.value| < TOP_COUNT then |mostPopular.value| else TOP_COUNT
    ensures top.Some? ==> top.value == mostPopular.value[..|top.value|]
  {
    if mostPopular.Some? then Some(SliceFromStart(mostPopular.value, TOP_COUNT)) else None
  }

  function MetadataUrl(m: MediaMetadata): string
  {
    m.url
  }

  /** `media["media-metadata"].map(meta => meta.url)`. */
  function MediaUrls(m: Media): seq<string>
  {
    Map(m.metadata, MetadataUrl)
  }

  /** `article.media.flatMap(...)`: the URLs of all renditions of all media, in
      order. */
  function Photos(media: seq<Media>): (photos: seq<string>)
    ensures forall u :: u in photos <==>
      exists i, k :: 0 <= i < |media| && 0 <= k < |media[i].metadata| && media[i].metadata[k].url == u
  {
    var urls := Map(media, MediaUrls);
    var photos := Flatten(urls);
    assert forall i :: 0 <= i < |media| ==> urls[i] == Map(media[i].metadata, MetadataUrl);
    photos
  }

  /** The photo list of a run of media is that of its first part followed by
      that of the rest. */
  lemma PhotosAppend(a: seq<Media>, b: seq<Media>)
    ensures Photos(a + b) == Photos(a) + Photos(b)
  {
    MapAppend(a, b, MediaUrls);
    FlattenAppend(Map(a, MediaUrls), Map(b, MediaUrls));
  }

  /** One medium contributes its renditions' URLs, in order. */
  lemma PhotosSingle(m: Media)
    ensures Photos([m]) == MediaUrls(m)
  {
    assert Map([m], MediaUrls) == [MediaUrls(m)];
    assert Flatten([MediaUrls(m)]) == MediaUrls(m) + Flatten([]);
    assert MediaUrls(m) + [] == MediaUrls(m);
  }

  function CardOf(r: PopularResult): (c: PopularCard)
    ensures c.id == r.id && c.title == r.title && c.abstractText == r.abstractText && c.url == r.url
    ensures c.photos == Photos(r.media)
  {
    PopularCard(r.id, r.title, r.abstractText, r.url, Photos(r.media))
  }

  /** `filteredMostPopularArticles`: a card for each of the top results, in order. */
  function HomeCards(mostPopular: Option<seq<PopularResult>>): (cards: Option<seq<PopularCard>>)
    ensures cards.None? <==> mostPopular.None?
    ensures cards.Some? ==> |cards.value| <= TOP_COUNT && |cards.value| <= |mostPopular.value|
    ensures cards.Some? ==> |cards.value| == TOP_COUNT || |cards.value| == |mostPopular.value|
    ensures cards.Some? ==> forall i :: 0 <= i < |cards.value| ==> cards.value[i] == CardOf(mostPopular.value[i])
  {
    var top := TopArticles(mostPopular);
    if top.Some? then Some(Map(top.value, CardOf)) else None
  }

  /** The class of the cell at `index` among `count` cells. */
  function ColSpanClass(index: int, count: int): (className: string)
    ensures className == "col-span-2" <==> index == 0 || index == count - 1
    ensures className != "col-span-2" ==> className == "col-span-1"
  {
    if index == 0 then "col-span-2"
    else if index == count - 1 then "col-span-2"
    else "col-span-1"
  }

  /** The grid cells for the cards. */
  function Layout(cards: seq<PopularCard>): (cells: seq<Cell>)
    ensures |cells| == |cards|
    ensures forall i :: 0 <= i < |cards| ==> cells[i] == Cell(ColSpanClass(i, |cards|), cards[i])
  {
    seq(|cards|, i requires 0 <= i < |cards| => Cell(ColSpanClass(i, |cards|), cards[i]))
  }

  /** The number of grid columns a cell takes. */
  function Span(c: Cell): nat
  {
    if c.className == "col-span-2" then 2 else 1
  }

  function TotalSpan(cells: seq<Cell>): nat
  {
    if cells == [] then 0 else TotalSpan(cells[..|cells| - 1]) + Span(cells[|cells| - 1])
  }

  /** The first and the last cell are wide and the rest narrow, so `n >= 2`
      cards take `n + 2` columns; six cards fill two rows of four. */
  lemma {:induction false} LayoutSpan(cards: seq<PopularCard>)
    requires |cards| >= 2
    ensures TotalSpan(Layout(cards)) == |cards| + 2
  {
    var cells := Layout(cards);
    var n := |cards|;
    NarrowMiddle(cells, n - 1);
    assert cells[..n - 1][..n - 2] == cells[..n - 2];
  }

  /** Helper of `LayoutSpan`: the prefix of `k >= 1` cells of a layout spans
      `k + 1` columns, since only its first cell is wide. */
  lemma {:induction false} NarrowMiddle(cells: seq<Cell>, k: nat)
    requires |cells| >= 2 && 1 <= k < |cells|
    requires forall i :: 0 <= i < |cells| ==> (cells[i].className == "col-span-2" <==> i == 0 || i == |cells| - 1)
    ensures TotalSpan(cells[..k]) == k + 1
  {
    if k == 1 {
      assert cells[..1][..0] == [];
    } else {
      NarrowMiddle(cells, k - 1);
      assert cells[..k][..k - 1] == cells[..k - 1];
    }
  }

  /** The page shows six cards fitting two rows exactly when the feed has at
      least six results. */
  lemma TopSixFillTwoRows(results: seq<PopularResult>)
    requires |results| >= TOP_COUNT
    ensures TotalSpan(Layout(HomeCards(Some(results)).value)) == 8
  {
    LayoutSpan(HomeCards(Some(results)).value);
  }
}
