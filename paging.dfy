/** Offset pagination as both listing endpoints compute it. */
module Paging {
  import opened Arith

  /** The offset of a page: `skip = (page - 1) * perPage`. */
  function Skip(page: int, perPage: int): (skip: nat)
    requires page >= 1 && perPage >= 0
    ensures skip == (page - 1) * perPage
  {
    MulMonotone(0, page - 1, perPage);
    (page - 1) * perPage
  }

  /** The rows a `findMany({ skip, take })` returns of an ordered result. */
  function PageSlice<T>(s: seq<T>, skip: nat, take: nat): (r: seq<T>)
    ensures |r| == Min(take, Max(0, |s| - skip))
    ensures forall i :: 0 <= i < |r| ==> r[i] == s[skip + i]
  {
    if skip >= |s| then [] else s[skip..Min(skip + take, |s|)]
  }

  /**
   * With skip = (page - 1) * perPage and a full page slice, more rows follow the
   * page exactly when the page is before the last one.
   */
  lemma MoreRowsIffBeforeLastPage(page: int, perPage: int, total: int, rows: int)
    requires page >= 1 && perPage >= 1 && total >= 0
    requires rows == Min(perPage, Max(0, total - (page - 1) * perPage))
    ensures (page - 1) * perPage + rows < total <==> page < CeilDiv(total, perPage)
  {
    var skip := (page - 1) * perPage;
    var n := CeilDiv(total, perPage);
    assert page * perPage == skip + perPage;
    if skip + rows < total {
      // then rows == perPage and page * perPage < total <= n * perPage
      if page >= n { MulMonotone(n, page, perPage); }
    } else {
      // then page * perPage >= total > (n - 1) * perPage, or the page starts past the end
      if page < n { MulMonotone(page, n - 1, perPage); }
    }
  }

  /** Row i of an ordered result is row i % perPage of page i / perPage + 1. */
  lemma RowOnItsPage<T>(s: seq<T>, perPage: int, i: int)
    requires perPage >= 1 && 0 <= i < |s|
    ensures var skip := (i / perPage) * perPage;
            0 <= skip <= i && i - skip == i % perPage
            && i - skip < |PageSlice(s, skip, perPage)| && PageSlice(s, skip, perPage)[i - skip] == s[i]
  {
    var q := i / perPage;
    assert i == q * perPage + i % perPage;
    MulMonotone(0, q, perPage);
  }
}
