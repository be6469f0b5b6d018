/**
 * The pager under the preset list: a page-size picker and previous/next
 * buttons over 1-based page numbers.
 */
module Pagination {
  /** The choices the page-size picker offers. */
  datatype SizeChoice = Ten | TwentyFive | Fifty

  function Size(c: SizeChoice): (n: int)
    ensures n == 10 || n == 25 || n == 50
  {
    match c
    case Ten => 10
    case TwentyFive => 25
    case Fifty => 50
  }

  /** Page sizes the picker can produce. */
  predicate OfferedSize(n: int)
  {
    n == 10 || n == 25 || n == 50
  }

  /** Every offered size is some choice's size. */
  lemma OfferedSizesAreChoices(n: int)
    requires OfferedSize(n)
    ensures exists c :: Size(c) == n
  {
    if n == 10 {
      assert Size(Ten) == n;
    } else if n == 25 {
      assert Size(TwentyFive) == n;
    } else {
      assert Size(Fifty) == n;
    }
  }

  /** Previous is disabled on the first page. */
  predicate PreviousDisabled(currentPage: int)
  {
    currentPage == 1
  }

  /** Next is disabled when the page shown is not full. */
  predicate NextDisabled(itemsOnThisPage: int, pageSize: int)
  {
    itemsOnThisPage < pageSize
  }

  /** The page an enabled Previous asks for: from a page of at least 1 it is again at least 1. */
  function PreviousPage(currentPage: int): (p: int)
    requires !PreviousDisabled(currentPage)
    ensures currentPage >= 1 ==> p >= 1
    ensures p + 1 == currentPage
  {
    currentPage - 1
  }

  /** The page an enabled Next asks for. */
  function NextPage(currentPage: int): (p: int)
    ensures p == currentPage + 1 && (currentPage >= 1 ==> p >= 2)
  {
    currentPage + 1
  }

  /** Previous undoes Next: from any page, one page on and one page back returns to it. */
  lemma PreviousUndoesNext(currentPage: int)
    requires currentPage >= 1
    ensures !PreviousDisabled(NextPage(currentPage)) && PreviousPage(NextPage(currentPage)) == currentPage
  {
  }
}
