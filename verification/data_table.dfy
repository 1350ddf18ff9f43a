/**
 * The page controls of the team-member table: the compact list of page labels
 * (page numbers and "..." markers), which label is active, and moving to a
 * page. The page count and the pagination state come from the table library;
 * here the page count is an input and the pagination state a field.
 */
module DataTable {

  /** A page label: a one-based page number or the "..." marker. */
  datatype Label = Num(n: int) | Ellipsis

  datatype PaginationState = PaginationState(pageIndex: int, pageSize: int)

  /** A pagination change: a new state, or a function of the old one. */
  datatype Updater = Replace(next: PaginationState) | Apply(f: PaginationState -> PaginationState)

  /** Page counts above this one are shortened with "..." markers. */
  const MaxFullPages := 7

  const AvailablePageSizes: seq<int> := [3, 10, 20, 50]

  function Max(a: int, b: int): int { if a < b then b else a }
  function Min(a: int, b: int): int { if a < b then a else b }

  /** The labels of pages `lo` to `hi`, in order. */
  function PageRange(lo: int, hi: int): (r: seq<Label>)
    decreases hi - lo
    ensures |r| == if hi < lo then 0 else hi - lo + 1
    ensures forall i :: 0 <= i < |r| ==> r[i] == Num(lo + i)
  {
    if hi < lo then [] else PageRange(lo, hi - 1) + [Num(hi)]
  }

  /**
   * The labels shown for `pageCount` pages when page `currentPage` (one-based)
   * is displayed: every page when there are at most seven, otherwise the first
   * page, the pages next to the current one, the last page, and a marker
   * wherever pages are skipped.
   */
  function PageLabels(pageCount: int, currentPage: int): seq<Label> {
    if pageCount <= MaxFullPages then PageRange(1, pageCount)
    else
      [Num(1)]
      + (if currentPage > 3 then [Ellipsis] else [])
      + PageRange(Max(2, currentPage - 1), Min(pageCount - 1, currentPage + 1))
      + (if currentPage < pageCount - 2 then [Ellipsis] else [])
      + [Num(pageCount)]
  }

  /** Page numbers only ever grow from left to right. */
  ghost predicate Increasing(s: seq<Label>) {
    forall i, j :: 0 <= i < j < |s| && s[i].Num? && s[j].Num? ==> s[i].n < s[j].n
  }

  /** Every page number lies in `[lo, hi]`. */
  ghost predicate NumsWithin(s: seq<Label>, lo: int, hi: int) {
    forall i :: 0 <= i < |s| && s[i].Num? ==> lo <= s[i].n <= hi
  }

  lemma ConcatIncreasing(a: seq<Label>, b: seq<Label>, lo: int, mid: int, hi: int)
    requires Increasing(a) && NumsWithin(a, lo, mid - 1)
    requires Increasing(b) && NumsWithin(b, mid, hi)
    requires lo <= mid <= hi + 1
    ensures Increasing(a + b) && NumsWithin(a + b, lo, hi)
  {
    var s := a + b;
    forall i, j | 0 <= i < j < |s| && s[i].Num? && s[j].Num?
      ensures s[i].n < s[j].n
    {
      if j < |a| {
        assert s[i] == a[i] && s[j] == a[j];
      } else if i < |a| {
        assert s[i] == a[i] && s[j] == b[j - |a|];
      } else {
        assert s[i] == b[i - |a|] && s[j] == b[j - |a|];
      }
    }
    forall i | 0 <= i < |s| && s[i].Num? ensures lo <= s[i].n <= hi {
      if i < |a| { assert s[i] == a[i]; } else { assert s[i] == b[i - |a|]; }
    }
  }

  /** With at most seven pages, the labels are exactly pages 1 to `pageCount`
      (none at all when there are no pages). */
  lemma FewPagesShowAll(pageCount: int, currentPage: int)
    requires pageCount <= MaxFullPages
    ensures |PageLabels(pageCount, currentPage)| == Max(pageCount, 0)
    ensures forall i :: 0 <= i < |PageLabels(pageCount, currentPage)| ==> PageLabels(pageCount, currentPage)[i] == Num(i + 1)
    ensures pageCount <= 0 ==> PageLabels(pageCount, currentPage) == []
  {
  }

  /** With more than seven pages, the first label is page 1 and the last is
      the last page. */
  lemma ManyPagesFirstAndLast(pageCount: int, currentPage: int)
    requires pageCount > MaxFullPages
    ensures |PageLabels(pageCount, currentPage)| >= 2
    ensures PageLabels(pageCount, currentPage)[0] == Num(1)
    ensures PageLabels(pageCount, currentPage)[|PageLabels(pageCount, currentPage)| - 1] == Num(pageCount)
  {
  }

  /** Page numbers are strictly increasing, all lie in `[1, pageCount]`, and
      there are never more than seven labels. */
  lemma {:induction false} LabelsWellFormed(pageCount: int, currentPage: int)
    ensures Increasing(PageLabels(pageCount, currentPage))
    ensures NumsWithin(PageLabels(pageCount, currentPage), 1, pageCount)
    ensures |PageLabels(pageCount, currentPage)| <= MaxFullPages
  {
    if pageCount > MaxFullPages {
      var c := currentPage;
      var lead: seq<Label> := if c > 3 then [Ellipsis] else [];
      var trail: seq<Label> := if c < pageCount - 2 then [Ellipsis] else [];
      var window := PageRange(Max(2, c - 1), Min(pageCount - 1, c + 1));
      ConcatIncreasing([Num(1)], lead, 1, 2, 1);
      ConcatIncreasing([Num(1)] + lead, window, 1, 2, pageCount - 1);
      ConcatIncreasing([Num(1)] + lead + window, trail, 1, pageCount, pageCount - 1);
      ConcatIncreasing([Num(1)] + lead + window + trail, [Num(pageCount)], 1, pageCount, pageCount);
    }
  }

  /** With more than seven pages and the current page in range, a marker
      follows page 1 exactly when the current page is beyond page 3, and a
      marker precedes the last page exactly when the current page is more
      than two pages before it. */
  lemma EllipsisPlacement(pageCount: int, currentPage: int)
    requires pageCount > MaxFullPages
    requires 1 <= currentPage <= pageCount
    ensures var r := PageLabels(pageCount, currentPage);
      |r| >= 3 &&
      (r[1] == Ellipsis <==> currentPage > 3) &&
      (r[|r| - 2] == Ellipsis <==> currentPage < pageCount - 2)
  {
    var c := currentPage;
    var window := PageRange(Max(2, c - 1), Min(pageCount - 1, c + 1));
    assert |window| >= 1;
  }

  /** With more than seven pages, a page is shown exactly when it is the first,
      the last, or within one of the current page. */
  lemma VisiblePages(pageCount: int, currentPage: int, k: int)
    requires pageCount > MaxFullPages
    requires 1 <= k <= pageCount
    ensures Num(k) in PageLabels(pageCount, currentPage) <==>
      k == 1 || k == pageCount || currentPage - 1 <= k <= currentPage + 1
  {
    var c := currentPage;
    var lo, hi := Max(2, c - 1), Min(pageCount - 1, c + 1);
    var window := PageRange(lo, hi);
    var r := PageLabels(pageCount, c);
    if lo <= k <= hi {
      assert window[k - lo] == Num(k);
      assert Num(k) in window;
    }
    if Num(k) in window {
      var i :| 0 <= i < |window| && window[i] == Num(k);
    }
  }

  /** The three shapes the labels take for ten pages. */
  lemma TenPageTraces()
    ensures PageLabels(10, 1) == [Num(1), Num(2), Ellipsis, Num(10)]
    ensures PageLabels(10, 6) == [Num(1), Ellipsis, Num(5), Num(6), Num(7), Ellipsis, Num(10)]
    ensures PageLabels(10, 10) == [Num(1), Ellipsis, Num(9), Num(10)]
  {
    assert PageRange(2, 2) == [Num(2)];
    assert PageRange(5, 7) == [Num(5), Num(6), Num(7)];
    assert PageRange(9, 9) == [Num(9)];
  }

  /** Pushes the labels of pages `start` to `end` onto `pages`, one by one. */
  method PushPages(pages: seq<Label>, start: int, end: int) returns (r: seq<Label>)
    ensures r == pages + PageRange(start, end)
  {
    r := pages;
    var i := start;
    while i <= end
      invariant start <= i <= Max(end, start - 1) + 1
      invariant r == pages + PageRange(start, i - 1)
    {
      r := r + [Num(i)];
      i := i + 1;
    }
  }

  /** The table component's own pagination state. */
  class DataTableComponent {
    var pagination: PaginationState

    /** Starts on the first page with five rows per page, a size that is not
        one of the sizes offered to the user. */
    constructor ()
      ensures pagination == PaginationState(0, 5)
      ensures pagination.pageSize !in AvailablePageSizes
    {
      pagination := PaginationState(0, 5);
    }

    /** The labels for the current page, built up one label at a time. */
    method GetPageNumbers(pageCount: int) returns (pages: seq<Label>)
      ensures pages == PageLabels(pageCount, pagination.pageIndex + 1)
      ensures Increasing(pages) && NumsWithin(pages, 1, pageCount) && |pages| <= MaxFullPages
    {
      var currentPage := pagination.pageIndex + 1;
      pages := [];
      if pageCount <= MaxFullPages {
        pages := PushPages(pages, 1, pageCount);
      } else {
        ghost var lead: seq<Label> := if currentPage > 3 then [Ellipsis] else [];
        ghost var trail: seq<Label> := if currentPage < pageCount - 2 then [Ellipsis] else [];
        pages := pages + [Num(1)];
        if currentPage > 3 {
          pages := pages + [Ellipsis];
        }
        assert pages == [Num(1)] + lead;
        pages := PushPages(pages, Max(2, currentPage - 1), Min(pageCount - 1, currentPage + 1));
        ghost var body := pages;
        if currentPage < pageCount - 2 {
          pages := pages + [Ellipsis];
        }
        pages := pages + [Num(pageCount)];
        assert pages == body + trail + [Num(pageCount)];
      }
      LabelsWellFormed(pageCount, currentPage);
    }

    /** A label is active exactly when it is the current page's number. */
    predicate IsActivePage(page: Label)
      reads this
      ensures IsActivePage(page) <==> page == Num(pagination.pageIndex + 1)
    {
      page.Num? && pagination.pageIndex == page.n - 1
    }

    /** Applies a pagination change coming from the table. */
    method OnPaginationChange(updater: Updater)
      modifies this
      ensures updater.Replace? ==> pagination == updater.next
      ensures updater.Apply? ==> pagination == updater.f(old(pagination))
    {
      pagination := match updater
        case Replace(next) => next
        case Apply(f) => f(pagination);
    }

    /** Moves to the page a label names; a marker does nothing. */
    method GoToPage(page: Label)
      modifies this
      ensures page.Num? ==> pagination == old(pagination).(pageIndex := page.n - 1)
      ensures page.Num? ==> IsActivePage(page)
      ensures page.Ellipsis? ==> pagination == old(pagination)
    {
      if page.Num? {
        var target := page.n - 1;
        OnPaginationChange(Apply((s: PaginationState) => s.(pageIndex := target)));
      }
    }
  }

  /** In increasing labels a page number occurs at most once. */
  lemma IncreasingInjective(s: seq<Label>, i: int, j: int)
    requires Increasing(s)
    requires 0 <= i < |s| && 0 <= j < |s| && s[i].Num? && s[i] == s[j]
    ensures i == j
  {
  }

  /** When the page index is in range, exactly one label is active. */
  lemma ExactlyOneActivePage(t: DataTableComponent, pageCount: int)
    requires 0 <= t.pagination.pageIndex < pageCount
    ensures var r := PageLabels(pageCount, t.pagination.pageIndex + 1);
      exists i :: 0 <= i < |r| && t.IsActivePage(r[i]) &&
        forall j :: 0 <= j < |r| && t.IsActivePage(r[j]) ==> j == i
  {
    var c := t.pagination.pageIndex + 1;
    var r := PageLabels(pageCount, c);
    if pageCount > MaxFullPages {
      VisiblePages(pageCount, c, c);
    } else {
      assert r[c - 1] == Num(c);
    }
    var i :| 0 <= i < |r| && r[i] == Num(c);
    LabelsWellFormed(pageCount, c);
    forall j | 0 <= j < |r| && t.IsActivePage(r[j]) ensures j == i {
      IncreasingInjective(r, i, j);
    }
  }

  /** Every page a label leads to is a valid zero-based page index. */
  lemma LabelTargetsInRange(pageCount: int, currentPage: int)
    ensures forall i :: 0 <= i < |PageLabels(pageCount, currentPage)| && PageLabels(pageCount, currentPage)[i].Num? ==>
      0 <= PageLabels(pageCount, currentPage)[i].n - 1 < pageCount
  {
    LabelsWellFormed(pageCount, currentPage);
  }
}
