/** The page selector under a post list: one button per page, numbered
    from 1 to the number of pages, the current page highlighted, and
    nothing at all when there is at most one page. */
module Pagination {
  import opened Common

  /** `Math.ceil(total / perPage)` on counts. */
  function CeilDiv(total: nat, perPage: nat): nat
    requires perPage > 0
  {
    (total + perPage - 1) / perPage
  }

  /** `CeilDiv` is the number of pages of `perPage` posts that hold
      `total` posts: enough for all of them, and one page fewer is not. */
  lemma CeilDivIsCeiling(total: nat, perPage: nat)
    requires perPage > 0
    ensures CeilDiv(total, perPage) * perPage >= total
    ensures CeilDiv(total, perPage) > 0 ==> (CeilDiv(total, perPage) - 1) * perPage < total
    ensures CeilDiv(total, perPage) == 0 <==> total == 0
  {
    var q := CeilDiv(total, perPage);
    var r := (total + perPage - 1) % perPage;
    assert total + perPage - 1 == q * perPage + r;
    assert (q - 1) * perPage == q * perPage - perPage;
  }

  /** The list the loop builds for `count` pages: `[1, 2, ..., count]`. */
  function PageList(count: nat): seq<nat> {
    if count == 0 then [] else PageList(count - 1) + [count]
  }

  lemma {:induction false} PageListShape(count: nat)
    ensures |PageList(count)| == count
    ensures forall i | 0 <= i < count :: PageList(count)[i] == i + 1
  {
    if count > 0 {
      PageListShape(count - 1);
    }
  }

  /** The page numbers are strictly increasing (so pairwise distinct) and
      a number is listed exactly when it is between 1 and the page count. */
  lemma PageListOrdered(count: nat)
    ensures forall i, j | 0 <= i < j < |PageList(count)| :: PageList(count)[i] < PageList(count)[j]
    ensures forall n: nat :: n in PageList(count) <==> 1 <= n <= count
  {
    PageListShape(count);
    forall n: nat | 1 <= n <= count ensures n in PageList(count) {
      assert PageList(count)[n - 1] == n;
    }
  }

  /** The loop of the component: push `i` for `i` from 1 while
      `i <= ceil(total / perPage)`. */
  method PageNumbers(totalPosts: nat, postsPerPage: nat) returns (pageNumbers: seq<nat>)
    requires postsPerPage > 0
    ensures pageNumbers == PageList(CeilDiv(totalPosts, postsPerPage))
  {
    pageNumbers := [];
    var i := 1;
    while i <= CeilDiv(totalPosts, postsPerPage)
      invariant 1 <= i <= CeilDiv(totalPosts, postsPerPage) + 1
      invariant pageNumbers == PageList(i - 1)
    {
      pageNumbers := pageNumbers + [i];
      i := i + 1;
    }
  }

  /** The component renders nothing exactly when all posts fit on one page. */
  lemma HiddenIffOnePage(totalPosts: nat, postsPerPage: nat)
    requires postsPerPage > 0
    ensures |PageList(CeilDiv(totalPosts, postsPerPage))| <= 1 <==> totalPosts <= postsPerPage
    ensures forall currentPage :: Render(totalPosts, postsPerPage, currentPage).None? <==> totalPosts <= postsPerPage
  {
    var c := CeilDiv(totalPosts, postsPerPage);
    PageListShape(c);
    CeilDivIsCeiling(totalPosts, postsPerPage);
    if c >= 2 {
      assert (c - 1) * postsPerPage >= postsPerPage;
    }
  }

  datatype PageButton = PageButton(number: nat, highlighted: bool)

  /** One button per page number, in order; the one equal to
      `currentPage` is highlighted, and clicking a button calls
      `paginate(number)`. */
  function Buttons(pageNumbers: seq<nat>, currentPage: int): (r: seq<PageButton>)
    ensures |r| == |pageNumbers|
    ensures forall i | 0 <= i < |r| ::
      r[i].number == pageNumbers[i] && (r[i].highlighted <==> pageNumbers[i] == currentPage)
  {
    if |pageNumbers| == 0 then []
    else Buttons(pageNumbers[..|pageNumbers| - 1], currentPage)
         + [PageButton(pageNumbers[|pageNumbers| - 1], pageNumbers[|pageNumbers| - 1] == currentPage)]
  }

  /** What the component renders: nothing, or the row of buttons. */
  function Render(totalPosts: nat, postsPerPage: nat, currentPage: int): Option<seq<PageButton>>
    requires postsPerPage > 0
  {
    var pageNumbers := PageList(CeilDiv(totalPosts, postsPerPage));
    if |pageNumbers| <= 1 then None else Some(Buttons(pageNumbers, currentPage))
  }

  function HighlightedCount(buttons: seq<PageButton>): nat {
    if |buttons| == 0 then 0
    else HighlightedCount(buttons[..|buttons| - 1]) + (if buttons[|buttons| - 1].highlighted then 1 else 0)
  }

  lemma {:induction false} HighlightedCountPages(count: nat, currentPage: int)
    ensures HighlightedCount(Buttons(PageList(count), currentPage)) ==
      if 1 <= currentPage <= count then 1 else 0
  {
    if count > 0 {
      HighlightedCountPages(count - 1, currentPage);
      var pages := PageList(count);
      assert pages[..|pages| - 1] == PageList(count - 1);
      var buttons := Buttons(pages, currentPage);
      assert buttons[..|buttons| - 1] == Buttons(PageList(count - 1), currentPage);
    }
  }

  /** When the selector is shown, exactly one button is highlighted if the
      current page is in range, and none otherwise. */
  lemma ExactlyOneHighlighted(totalPosts: nat, postsPerPage: nat, currentPage: int)
    requires postsPerPage > 0
    ensures Render(totalPosts, postsPerPage, currentPage).Some? ==>
      HighlightedCount(Render(totalPosts, postsPerPage, currentPage).value) ==
        if 1 <= currentPage <= CeilDiv(totalPosts, postsPerPage) then 1 else 0
  {
    HighlightedCountPages(CeilDiv(totalPosts, postsPerPage), currentPage);
  }

  /** Every button hands `paginate` a listed page number between 1 and the
      page count. */
  lemma ClickedPageInRange(totalPosts: nat, postsPerPage: nat, currentPage: int, k: nat)
    requires postsPerPage > 0
    requires Render(totalPosts, postsPerPage, currentPage).Some?
    requires k < |Render(totalPosts, postsPerPage, currentPage).value|
    ensures var n := Render(totalPosts, postsPerPage, currentPage).value[k].number;
      n in PageList(CeilDiv(totalPosts, postsPerPage)) && 1 <= n <= CeilDiv(totalPosts, postsPerPage)
  {
    PageListOrdered(CeilDiv(totalPosts, postsPerPage));
  }
}
