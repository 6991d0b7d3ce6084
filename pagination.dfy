/** The pagination bar: "Previous" and "Next" buttons around the page number.
    Both buttons are wired to the one `setCurrentPage` callback. */
module PaginationControl {
  import opened Js

  datatype PageButton = Previous | Next

  /** What the bar shows. */
  datatype PaginationView = PaginationView(previousDisabled: bool, nextDisabled: bool, shownPage: int)

  /** The bar for `currentPage`; an absent `noMoreItems` leaves "Next" enabled. */
  function Pagination(currentPage: int, noMoreItems: Option<bool>): (v: PaginationView)
    ensures v.previousDisabled <==> currentPage == 1
    ensures v.nextDisabled <==> noMoreItems == Some(true)
    ensures v.shownPage == currentPage
  {
    PaginationView(currentPage == 1, noMoreItems == Some(true), currentPage)
  }

  /** The callback a button runs: the same one for both buttons. */
  function OnClick<S>(button: PageButton, setCurrentPage: S -> S): (f: S -> S)
    ensures f == setCurrentPage
  {
    setCurrentPage
  }

  /** The callback both pages pass: `setCurrentPage(prev => prev + 1)`. */
  function AdvancePage(prev: int): (r: int)
    ensures r > prev
    ensures r - prev == 1
  {
    prev + 1
  }

  /** A click on an enabled button, wired as both pages wire it: the page
      state after the click, or no change when the button is disabled. */
  function Click(button: PageButton, currentPage: int, noMoreItems: Option<bool>): (next: int)
    ensures var v := Pagination(currentPage, noMoreItems);
      var disabled := if button == Previous then v.previousDisabled else v.nextDisabled;
      next == if disabled then currentPage else currentPage + 1
  {
    var v := Pagination(currentPage, noMoreItems);
    var disabled := if button == Previous then v.previousDisabled else v.nextDisabled;
    if disabled then currentPage else OnClick(button, AdvancePage)(currentPage)
  }

  /** "Previous" does not go back: on any page but the first it moves to the
      next page, as "Next" does. */
  lemma PreviousAdvancesPage(currentPage: int, noMoreItems: Option<bool>)
    requires currentPage != 1
    ensures Click(Previous, currentPage, noMoreItems) == currentPage + 1
    ensures noMoreItems != Some(true) ==> Click(Previous, currentPage, noMoreItems) == Click(Next, currentPage, noMoreItems)
  {
  }

  /** A click never lowers the page, so a page counter that starts at 1 stays
      at least 1. */
  lemma ClickNeverLowersPage(button: PageButton, currentPage: int, noMoreItems: Option<bool>)
    ensures Click(button, currentPage, noMoreItems) >= currentPage
  {
  }

  /** `noMoreItems`: `articlesList && results.length < PAGE_SIZE`, absent while
      the page has no data. */
  function NoMoreItems<T>(results: Option<seq<T>>, pageSize: int): (r: Option<bool>)
    ensures r.None? <==> results.None?
    ensures r == Some(true) <==> results.Some? && |results.value| < pageSize
  {
    if results.Some? then Some(|results.value| < pageSize) else None
  }

  /** What a page renders where the bar goes. */
  datatype PaginationSlot = NothingRendered | ZeroText | Bar(view: PaginationView)

  /** `filteredArticles && filteredArticles?.length > 0 && <Pagination ... />`:
      the bar while the filtered list is known and non-empty, nothing otherwise. */
  function GuardedPagination<T>(filtered: Option<seq<T>>, currentPage: int, noMoreItems: Option<bool>): (slot: PaginationSlot)
    ensures slot.Bar? <==> filtered.Some? && |filtered.value| > 0
    ensures slot.Bar? ==> slot.view == Pagination(currentPage, noMoreItems)
    ensures !slot.Bar? ==> slot.NothingRendered?
  {
    if filtered.Some? && |filtered.value| > 0 then Bar(Pagination(currentPage, noMoreItems)) else NothingRendered
  }
}
