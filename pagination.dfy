/** The paginator (`paginate` in backend/index.js): one page of an ordered list
    with its metadata. The slice follows Array.prototype.slice, where a
    negative index counts back from the end of the array. */
module Pagination {

  datatype Page<T> = Page(page: int, limit: int, total: nat, totalPages: nat, results: seq<T>)

  function Min(a: int, b: int): int { if a <= b then a else b }

  function Max(a: int, b: int): int { if a >= b then a else b }

  /** Math.ceil(n / d): the fewest pages of `d` items that hold `n` items. */
  function CeilDiv(n: nat, d: nat): (q: nat)
    requires d >= 1
    ensures q * d >= n
    ensures q == 0 || (q - 1) * d < n
  {
    var q := (n + d - 1) / d;
    assert q * d <= n + d - 1 < q * d + d;
    q
  }

  /** How slice reads one index argument against an array of length n. */
  function SliceIndex(i: int, n: nat): (k: nat)
    ensures k <= n
    ensures 0 <= i ==> k == Min(i, n)
    ensures i < 0 ==> k == Max(n + i, 0)
  {
    if i < 0 then Max(n + i, 0) else Min(i, n)
  }

  /** a.slice(start, end). */
  function Slice<T>(a: seq<T>, start: int, end: int): seq<T> {
    var from, to := SliceIndex(start, |a|), SliceIndex(end, |a|);
    if from < to then a[from..to] else []
  }

  /** A slice is never longer than its window; from a start at or past 0 it
      reads the window clamped to the array. */
  lemma SliceWindow<T>(a: seq<T>, start: int, end: int)
    requires start <= end
    ensures |Slice(a, start, end)| <= end - start
    ensures 0 <= start ==> Slice(a, start, end) == a[Min(start, |a|)..Min(end, |a|)]
  {
  }

  /** `(page - 1) * limit`: the index where a page begins. */
  function PageStart(page: int, limit: int): (start: int)
    requires limit >= 1
    ensures page >= 1 ==> start >= 0
    ensures page <= 0 ==> start + limit <= 0
  {
    StartOfPage(page, limit);
    (page - 1) * limit
  }

  /** paginate(array, page, limit). `limit` is at least 1 at every call site
      (always 10); `page` is whatever the request parsed to. */
  function Paginate<T>(a: seq<T>, page: int, limit: int): (r: Page<T>)
    requires limit >= 1
    ensures r.page == page && r.limit == limit
    ensures r.total == |a| && r.totalPages == CeilDiv(|a|, limit)
    ensures |r.results| <= limit
    ensures page >= 1 ==>
      r.results == a[Min(PageStart(page, limit), |a|)..Min(PageStart(page, limit) + limit, |a|)]
    ensures page >= 1 && PageStart(page, limit) >= |a| ==> r.results == []
  {
    var start := PageStart(page, limit);
    var end := start + limit;
    SliceWindow(a, start, end);
    Page(page, limit, |a|, CeilDiv(|a|, limit), Slice(a, start, end))
  }

  /** Where a page starts: at or after index 0 from page 1 on. */
  lemma StartOfPage(page: int, limit: int)
    requires limit >= 1
    ensures page >= 1 ==> (page - 1) * limit >= 0
    ensures page <= 0 ==> (page - 1) * limit + limit <= 0
  {
    if page >= 1 {
      MulNonNegative(page - 1, limit);
    } else {
      MulNonNegative(-page, limit);
    }
  }

  lemma MulNonNegative(x: int, y: int)
    requires x >= 0 && y >= 0
    ensures x * y >= 0
  {
  }

  /** Each page starts `limit` items after the one before it. */
  lemma NextPageStart(page: int, limit: int)
    requires limit >= 1
    ensures PageStart(page + 1, limit) == PageStart(page, limit) + limit
  {
  }

  /** A page past the last one is empty and is not an error. */
  lemma PastLastPageEmpty<T>(a: seq<T>, page: int, limit: int)
    requires limit >= 1 && page > CeilDiv(|a|, limit)
    ensures Paginate(a, page, limit).results == []
  {
    var q := CeilDiv(|a|, limit);
    MulNonNegative(page - 1 - q, limit);
    assert PageStart(page, limit) == q * limit + (page - 1 - q) * limit;
  }

  /** Page 0 is empty; a negative page is a window counted back from the end. */
  lemma NonPositivePage<T>(a: seq<T>, page: int, limit: int)
    requires limit >= 1 && page <= 0
    ensures page == 0 ==> Paginate(a, page, limit).results == []
    ensures page < 0 ==>
      var start := PageStart(page, limit);
      Paginate(a, page, limit).results == a[Max(|a| + start, 0)..Max(|a| + start + limit, 0)]
  {
  }

  /** Page -1 of 25 items reads items 5..14 rather than nothing. */
  lemma NegativePageExample(a: seq<int>)
    requires |a| == 25
    ensures Paginate(a, -1, 10).results == a[5..15]
  {
    NonPositivePage(a, -1, 10);
  }

  /** The results of pages 1..k, one after another. */
  function PagesUpTo<T>(a: seq<T>, limit: int, k: nat): seq<T>
    requires limit >= 1
  {
    if k == 0 then [] else PagesUpTo(a, limit, k - 1) + Paginate(a, k, limit).results
  }

  /** Pages 1..k together are everything before page k + 1 starts. */
  lemma {:induction false} PagesUpToPrefix<T>(a: seq<T>, limit: int, k: nat)
    requires limit >= 1
    ensures PagesUpTo(a, limit, k) == a[..Min(PageStart(k + 1, limit), |a|)]
  {
    if k > 0 {
      PagesUpToPrefix(a, limit, k - 1);
      NextPageStart(k, limit);
      var start := PageStart(k, limit);
      var i, j := Min(start, |a|), Min(start + limit, |a|);
      assert Paginate(a, k, limit).results == a[i..j];
      assert a[..i] + a[i..j] == a[..j];
    }
  }

  /** Reading pages 1..totalPages in turn gives back the whole list, in order. */
  lemma PagesCoverAll<T>(a: seq<T>, limit: int)
    requires limit >= 1
    ensures PagesUpTo(a, limit, CeilDiv(|a|, limit)) == a
    ensures |PagesUpTo(a, limit, CeilDiv(|a|, limit))| == |a|
  {
    var q := CeilDiv(|a|, limit);
    PagesUpToPrefix(a, limit, q);
    assert PageStart(q + 1, limit) == q * limit;
  }
}
