/** The page navigation bar (components/Pagination.tsx): a Previous button,
    one button per page, and a Next button, each requesting a page through
    `onPageChange`. */
module Pagination {

  datatype PageButton = PageButton(page: int, bold: bool)

  /** What the bar shows and what each button requests. */
  datatype Nav = Nav(previousTarget: int, previousDisabled: bool, buttons: seq<PageButton>,
                     nextTarget: int, nextDisabled: bool)

  /** `Array.from({ length: totalPages }, (_, i) => i + 1)`. */
  function PageNumbers(totalPages: nat): (pages: seq<int>)
    ensures |pages| == totalPages
    ensures forall k :: 0 <= k < |pages| ==> pages[k] == k + 1
    ensures forall p :: p in pages <==> 1 <= p <= totalPages
  {
    if totalPages == 0 then []
    else
      var r := PageNumbers(totalPages - 1) + [totalPages];
      assert forall p {:trigger p in r} :: 1 <= p <= totalPages ==> r[p - 1] == p;
      r
  }

  /** The rendered bar for `currentPage` of `totalPages`. */
  function Render(currentPage: int, totalPages: nat): (nav: Nav)
    ensures |nav.buttons| == totalPages
  {
    var pages := PageNumbers(totalPages);
    Nav(currentPage - 1, currentPage == 1,
        seq(|pages|, k requires 0 <= k < |pages| => PageButton(pages[k], currentPage == pages[k])),
        currentPage + 1, currentPage == totalPages)
  }

  /** The buttons are 1..totalPages in ascending order; Previous goes one
      page back and is disabled exactly on page 1; Next goes one page on
      and is disabled exactly on page `totalPages`. */
  lemma RenderedBar(currentPage: int, totalPages: nat)
    ensures var nav := Render(currentPage, totalPages);
      && (forall k :: 0 <= k < |nav.buttons| ==> nav.buttons[k].page == k + 1)
      && nav.previousTarget == currentPage - 1
      && (nav.previousDisabled <==> currentPage == 1)
      && nav.nextTarget == currentPage + 1
      && (nav.nextDisabled <==> currentPage == totalPages)
  {
  }

  /** Only the button of the current page is bold: there is one such button
      when the current page is in range, and none otherwise. */
  lemma {:induction false} OnlyCurrentPageIsBold(currentPage: int, totalPages: nat)
    ensures var bs := Render(currentPage, totalPages).buttons;
      && (forall k :: 0 <= k < |bs| ==> (bs[k].bold <==> bs[k].page == currentPage))
      && (forall i, j :: 0 <= i < |bs| && 0 <= j < |bs| && bs[i].bold && bs[j].bold ==> i == j)
      && ((exists k :: 0 <= k < |bs| && bs[k].bold) <==> 1 <= currentPage <= totalPages)
  {
    var bs := Render(currentPage, totalPages).buttons;
    if 1 <= currentPage <= totalPages {
      assert bs[currentPage - 1].bold;
    }
  }

  /** Every page the bar lets a visitor request from a page >= 1 is >= 1. */
  lemma EnabledTargetsArePositive(currentPage: int, totalPages: nat)
    requires currentPage >= 1
    ensures var nav := Render(currentPage, totalPages);
      && (!nav.previousDisabled ==> nav.previousTarget >= 1)
      && (!nav.nextDisabled ==> nav.nextTarget >= 1)
      && (forall k :: 0 <= k < |nav.buttons| ==> nav.buttons[k].page >= 1)
  {
  }

  /** With no pages there are no page buttons, and Next is still enabled on
      page 1; past the last page Next is never disabled. */
  lemma NextEnabledPastTheEnd(currentPage: int, totalPages: nat)
    ensures Render(1, 0).buttons == [] && !Render(1, 0).nextDisabled
    ensures currentPage > totalPages ==> !Render(currentPage, totalPages).nextDisabled
  {
  }
}
