/** The page envelope every list endpoint returns. */
module Paging {

  datatype Page<T> = Page(
    content: seq<T>,
    pageNumber: int,
    pageSize: int,
    totalElements: nat,
    totalPages: nat,
    last: bool,
    first: bool)

  /** Integer ceiling of n / d. */
  function CeilDiv(n: nat, d: nat): nat
    requires d > 0
  {
    (n + d - 1) / d
  }

  /** The ceiling is the least number of d-sized pages that hold n items. */
  lemma CeilDivLeast(n: nat, d: nat)
    requires d > 0
    ensures CeilDiv(n, d) * d >= n
    ensures CeilDiv(n, d) > 0 ==> (CeilDiv(n, d) - 1) * d < n
    ensures CeilDiv(n, d) == 0 <==> n == 0
  {
    var q := (n + d - 1) / d;
    var rem := (n + d - 1) % d;
    assert n + d - 1 == q * d + rem;
    assert q * d >= n;
    if q > 0 {
      assert (q - 1) * d == q * d - d;
    }
  }

  /**
   * `PageResponse.of`: the content and paging parameters unchanged, the page
   * count rounded up, `first` on page 0 and `last` from the second-to-last
   * page number on.
   */
  function PageOf<T>(content: seq<T>, pageNumber: int, pageSize: int, totalElements: nat): (p: Page<T>)
    requires pageSize > 0
    ensures p.content == content && p.pageNumber == pageNumber
    ensures p.pageSize == pageSize && p.totalElements == totalElements
    ensures p.totalPages * pageSize >= totalElements
    ensures p.totalPages > 0 ==> (p.totalPages - 1) * pageSize < totalElements
    ensures p.totalPages == 0 <==> totalElements == 0
    ensures p.first <==> pageNumber == 0
    ensures p.last <==> pageNumber >= p.totalPages - 1
  {
    CeilDivLeast(totalElements, pageSize);
    var totalPages := CeilDiv(totalElements, pageSize);
    Page(content, pageNumber, pageSize, totalElements, totalPages, pageNumber >= totalPages - 1, pageNumber == 0)
  }

  /**
   * Walking the pages 0 .. totalPages-1, exactly the final one is last; an
   * empty listing's page 0 is both first and last.
   */
  lemma LastPageIsTheFinalOne<T>(content: seq<T>, pageNumber: int, pageSize: int, totalElements: nat)
    requires pageSize > 0
    ensures var p := PageOf(content, pageNumber, pageSize, totalElements);
      && (0 <= pageNumber < p.totalPages ==> (p.last <==> pageNumber == p.totalPages - 1))
      && (totalElements == 0 && pageNumber == 0 ==> p.first && p.last)
  {
  }

  /** Ten items in pages of three make four pages; nine make three. */
  lemma PageCountExamples()
    ensures PageOf<int>([], 0, 3, 10).totalPages == 4
    ensures PageOf<int>([], 2, 3, 9).totalPages == 3 && PageOf<int>([], 2, 3, 9).last
  {
  }
}
