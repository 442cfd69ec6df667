/**
 * The pagination bar: a current page that starts at 1, a previous and a
 * next button that are disabled at the ends, and one button per page.
 */
module Pagination {
  import opened Wrappers

  /** `Array.from({ length: totalPages }, (_, index) => index + 1)`. */
  function PageButtons(totalPages: int): (r: seq<int>)
    ensures |r| == if totalPages < 0 then 0 else totalPages
    ensures forall i :: 0 <= i < |r| ==> r[i] == i + 1
    decreases totalPages
  {
    if totalPages <= 0 then [] else PageButtons(totalPages - 1) + [totalPages]
  }

  /** The page buttons are in strictly ascending order. */
  lemma PageButtonsAscending(totalPages: int, i: int, j: int)
    requires 0 <= i < j < |PageButtons(totalPages)|
    ensures PageButtons(totalPages)[i] < PageButtons(totalPages)[j]
  {
  }

  /** A page button is highlighted when its number is the current page. */
  predicate Highlighted(currentPage: int, page: int) {
    currentPage == page
  }

  /** With the current page in range, exactly one page button is highlighted. */
  lemma ExactlyOneHighlighted(currentPage: int, totalPages: int)
    requires 1 <= currentPage <= totalPages
    ensures exists i :: 0 <= i < |PageButtons(totalPages)| && Highlighted(currentPage, PageButtons(totalPages)[i])
    ensures forall i, j ::
              (0 <= i < |PageButtons(totalPages)| && 0 <= j < |PageButtons(totalPages)| &&
               Highlighted(currentPage, PageButtons(totalPages)[i]) &&
               Highlighted(currentPage, PageButtons(totalPages)[j])) ==> i == j
  {
    assert Highlighted(currentPage, PageButtons(totalPages)[currentPage - 1]);
  }

  /** The buttons of the bar. */
  datatype Button = Prev | Next | Page(n: int)

  /** `disabled`: previous on the first page, next on the last one; page buttons never. */
  predicate Disabled(b: Button, currentPage: int, totalPages: int) {
    match b
    case Prev => currentPage == 1
    case Next => currentPage == totalPages
    case Page(_) => false
  }

  /** The page each button asks for. */
  function Target(b: Button, currentPage: int): int
  {
    match b
    case Prev => currentPage - 1
    case Next => currentPage + 1
    case Page(n) => n
  }

  /** A button that is on screen: every page button is numbered 1 to `totalPages`. */
  predicate Rendered(b: Button, totalPages: int) {
    b.Page? ==> 1 <= b.n <= totalPages
  }

  /** The current page after clicking `b`: a disabled button does nothing. */
  function Click(currentPage: int, totalPages: int, b: Button): int {
    if Disabled(b, currentPage, totalPages) then currentPage else Target(b, currentPage)
  }

  /** The current page after a sequence of clicks. */
  function Run(currentPage: int, totalPages: int, clicks: seq<Button>): int
    decreases |clicks|
  {
    if clicks == [] then currentPage
    else Run(Click(currentPage, totalPages, clicks[0]), totalPages, clicks[1..])
  }

  /** One click on a rendered button keeps the page in range. */
  lemma ClickStaysInRange(currentPage: int, totalPages: int, b: Button)
    requires 1 <= currentPage <= totalPages && Rendered(b, totalPages)
    ensures 1 <= Click(currentPage, totalPages, b) <= totalPages
  {
  }

  /** However many rendered buttons are clicked, the page stays between 1 and `totalPages`. */
  lemma {:induction false} RunStaysInRange(currentPage: int, totalPages: int, clicks: seq<Button>)
    requires 1 <= currentPage <= totalPages
    requires forall i :: 0 <= i < |clicks| ==> Rendered(clicks[i], totalPages)
    ensures 1 <= Run(currentPage, totalPages, clicks) <= totalPages
    decreases |clicks|
  {
    if clicks != [] {
      ClickStaysInRange(currentPage, totalPages, clicks[0]);
      RunStaysInRange(Click(currentPage, totalPages, clicks[0]), totalPages, clicks[1..]);
    }
  }

  /** With no pages at all, next is not disabled on page 1 and leads to page 2. */
  lemma NoPagesNextEnabled()
    ensures !Disabled(Next, 1, 0) && Click(1, 0, Next) == 2
  {
  }

  /** The component's state: `totalPages` is a prop, `currentPage` its own state. */
  class PaginationBar {
    const totalPages: int
    var currentPage: int

    /** The page is one of the page buttons. */
    predicate InRange()
      reads this
    {
      1 <= currentPage <= totalPages
    }

    constructor (totalPages: int)
      ensures this.totalPages == totalPages && currentPage == 1
      ensures totalPages >= 1 ==> InRange()
    {
      this.totalPages := totalPages;
      currentPage := 1;
    }

    /** `handlePageChange`: set the page and hand the same number to the parent. */
    method HandlePageChange(page: int) returns (notified: int)
      modifies this
      ensures currentPage == page && notified == page
    {
      currentPage := page;
      notified := page;
    }

    /** A click on `b`: an enabled button calls `handlePageChange` with its target. */
    method Press(b: Button) returns (notified: Option<int>)
      modifies this
      ensures currentPage == Click(old(currentPage), totalPages, b)
      ensures notified.Some? <==> !Disabled(b, old(currentPage), totalPages)
      ensures notified.Some? ==> notified.value == currentPage
      ensures old(InRange()) && Rendered(b, totalPages) ==> InRange()
    {
      if Disabled(b, currentPage, totalPages) {
        notified := None;
      } else {
        var p := HandlePageChange(Target(b, currentPage));
        notified := Some(p);
      }
    }
  }
}
