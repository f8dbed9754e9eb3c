/**
 * The admin tables' pagination: `rows.slice(page * rowsPerPage, page *
 * rowsPerPage + rowsPerPage)` and the page count shown beside it.
 */
module Paging {
  /** `rows.slice(start, end)` for `0 <= start`, clamped to the list. */
  function Slice<T>(rows: seq<T>, start: nat, end: nat): (r: seq<T>)
    ensures |r| == if start >= |rows| || end <= start then 0 else (if end <= |rows| then end else |rows|) - start
    ensures forall k :: 0 <= k < |r| ==> r[k] == rows[start + k]
  {
    if start >= |rows| || end <= start then [] else rows[start..if end <= |rows| then end else |rows|]
  }

  /** The rows of page `page` (counted from 0). */
  function PageRows<T>(rows: seq<T>, page: nat, rowsPerPage: nat): (r: seq<T>)
    ensures |r| <= rowsPerPage
    ensures |r| > 0 ==> page * rowsPerPage + |r| <= |rows|
    ensures forall k :: 0 <= k < |r| ==> r[k] == rows[page * rowsPerPage + k]
  {
    Slice(rows, page * rowsPerPage, page * rowsPerPage + rowsPerPage)
  }

  /** `Math.ceil(n / rowsPerPage)`. */
  function PageCount(n: nat, rowsPerPage: nat): (r: nat)
    requires rowsPerPage > 0
    ensures (r - 1) * rowsPerPage < n <= r * rowsPerPage || (n == 0 && r == 0)
  {
    (n + rowsPerPage - 1) / rowsPerPage
  }

  /** Row `i` is on page `i / rowsPerPage`, at position `i % rowsPerPage`, and that page exists. */
  lemma RowOnItsPage<T>(rows: seq<T>, rowsPerPage: nat, i: nat)
    requires rowsPerPage > 0 && i < |rows|
    ensures i / rowsPerPage < PageCount(|rows|, rowsPerPage)
    ensures i % rowsPerPage < |PageRows(rows, i / rowsPerPage, rowsPerPage)|
    ensures PageRows(rows, i / rowsPerPage, rowsPerPage)[i % rowsPerPage] == rows[i]
  {
    var p := i / rowsPerPage;
    var q := i % rowsPerPage;
    var start := p * rowsPerPage;
    assert start + q == i;
    var page := PageRows(rows, p, rowsPerPage);
    assert q < |page|;
    PageOfRowExists(|rows|, rowsPerPage, p, start);
  }

  /** A page whose first row exists is counted. */
  lemma PageOfRowExists(n: nat, rowsPerPage: nat, p: nat, start: nat)
    requires rowsPerPage > 0 && start == p * rowsPerPage && start < n
    ensures p < PageCount(n, rowsPerPage)
  {
    var m := n + rowsPerPage - 1;
    assert m >= start + rowsPerPage;
    assert start + rowsPerPage == (p + 1) * rowsPerPage;
    var c := m / rowsPerPage;
    assert m == c * rowsPerPage + m % rowsPerPage;
    assert m % rowsPerPage < rowsPerPage;
    assert (p + 1) * rowsPerPage < (c + 1) * rowsPerPage;
    MulMonotone(p + 1, c + 1, rowsPerPage);
  }

  /** Multiplying by a positive factor keeps a strict order the other way round. */
  lemma MulMonotone(x: int, y: int, k: int)
    requires k > 0 && x * k < y * k
    ensures x < y
  {
  }
}
