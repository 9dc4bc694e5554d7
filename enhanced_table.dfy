/** The shared data table: the column list it builds around the caller's columns, the
    go-to-page box and the page buttons. Sorting, filtering, selection and paging of the
    rows belong to the table library and are not part of this model. */
module EnhancedTable {
  import opened Wrappers
  import opened Text
  import opened Lists

  /** The parts of a column definition this component reads or sets. */
  datatype Column = Column(id: Option<string>, enableSorting: Option<bool>, enableHiding: Option<bool>)

  const SelectId: string := "select"
  const ActionsId: string := "actions"

  /** The page size when the caller gives none. */
  const DefaultPageSize: int := 8

  /** The leading row-selection column: neither sortable nor hideable. */
  const Checkbox: Column := Column(Some(SelectId), Some(false), Some(false))

  /** The trailing edit/delete column: not sortable. */
  const Actions: Column := Column(Some(ActionsId), Some(false), None)

  predicate IsActions(c: Column) {
    c.id == Some(ActionsId)
  }

  /** `columns.some((col) => col.id === "actions")`. */
  predicate HasActions(columns: seq<Column>) {
    exists i :: 0 <= i < |columns| && IsActions(columns[i])
  }

  /** A caller's column as the table receives it: sortable unless it opts out. */
  function Enhance(col: Column): (c: Column)
    ensures c.id == col.id && c.enableHiding == col.enableHiding
    ensures c.enableSorting == Some(true) <==> col.enableSorting != Some(false)
    ensures c.enableSorting.Some?
  {
    col.(enableSorting := Some(col.enableSorting != Some(false)))
  }

  /** `enhancedColumns`: the checkbox column, each caller column enhanced in order, and
      the actions column pushed when the caller has none of its own. */
  method BuildColumns(columns: seq<Column>) returns (cols: seq<Column>)
    ensures |cols| == |columns| + (if HasActions(columns) then 1 else 2)
    ensures cols[0] == Checkbox
    ensures forall i :: 0 <= i < |columns| ==> cols[i + 1] == Enhance(columns[i])
    ensures !HasActions(columns) ==> cols[|cols| - 1] == Actions
    ensures Count(cols, IsActions) == (if HasActions(columns) then Count(columns, IsActions) else 1)
  {
    var enhanced := seq(|columns|, i requires 0 <= i < |columns| => Enhance(columns[i]));
    var base := [Checkbox] + enhanced;
    assert forall i :: 0 <= i < |columns| ==> base[i + 1] == Enhance(columns[i]);
    ActionsCount(columns, enhanced);
    if !HasActions(columns) {
      CountAbsent(columns, IsActions);
      AppendActions(base);
      cols := base + [Actions];
      assert forall i :: 0 <= i < |base| ==> cols[i] == base[i];
    } else {
      var i :| 0 <= i < |columns| && IsActions(columns[i]);
      CountPresent(columns, IsActions, i);
      cols := base;
    }
  }

  /** The checkbox column is not an actions column, and the enhanced columns have as many
      as the caller's. */
  lemma ActionsCount(columns: seq<Column>, enhanced: seq<Column>)
    requires |enhanced| == |columns|
    requires forall i :: 0 <= i < |columns| ==> enhanced[i] == Enhance(columns[i])
    ensures Count([Checkbox] + enhanced, IsActions) == Count(columns, IsActions)
  {
    EnhancePreservesActions(columns, enhanced);
    CountAppend([Checkbox], enhanced, IsActions);
    assert Count([Checkbox], IsActions) == 0 by {
      assert [Checkbox][..0] == [];
    }
  }

  /** Pushing the actions column adds one to the count. */
  lemma AppendActions(cols: seq<Column>)
    ensures Count(cols + [Actions], IsActions) == Count(cols, IsActions) + 1
  {
    assert (cols + [Actions])[..|cols|] == cols;
  }

  /** Enhancing keeps the ids, so it keeps the count of actions columns. */
  lemma {:induction false} EnhancePreservesActions(columns: seq<Column>, enhanced: seq<Column>)
    requires |enhanced| == |columns|
    requires forall i :: 0 <= i < |columns| ==> enhanced[i] == Enhance(columns[i])
    ensures Count(enhanced, IsActions) == Count(columns, IsActions)
    decreases |columns|
  {
    if columns != [] {
      var n := |columns| - 1;
      EnhancePreservesActions(columns[..n], enhanced[..n]);
    }
  }

  lemma {:induction false} CountAbsent<T>(s: seq<T>, p: T -> bool)
    requires forall i :: 0 <= i < |s| ==> !p(s[i])
    ensures Count(s, p) == 0
    decreases |s|
  {
    if s != [] {
      CountAbsent(s[..|s| - 1], p);
    }
  }

  lemma {:induction false} CountPresent<T>(s: seq<T>, p: T -> bool, i: nat)
    requires i < |s| && p(s[i])
    ensures Count(s, p) > 0
    decreases |s|
  {
    if i < |s| - 1 {
      CountPresent(s[..|s| - 1], p, i);
    }
  }

  /** The table always ends up with exactly one actions column unless the caller supplied
      several. */
  lemma ExactlyOneActionsColumn(columns: seq<Column>, cols: seq<Column>)
    requires Count(cols, IsActions) == (if HasActions(columns) then Count(columns, IsActions) else 1)
    requires Count(columns, IsActions) <= 1
    ensures Count(cols, IsActions) == 1
  {
    if HasActions(columns) {
      var i :| 0 <= i < |columns| && IsActions(columns[i]);
      CountPresent(columns, IsActions, i);
    }
  }

  /** The "No results." cell spans every column the table shows: the checkbox column, each
      of the caller's columns, and the actions column when the caller has none. */
  method EmptyRowSpan(columns: seq<Column>) returns (span: nat)
    ensures span == |columns| + 1 + (if HasActions(columns) then 0 else 1)
    ensures span > |columns|
  {
    var cols := BuildColumns(columns);
    span := |cols|;
  }

  /** What `handleGoToPage` asks of the table: page index n - 1 when the box parses to a
      page number n within 1..totalPages, otherwise nothing. */
  function PageRequest(input: string, totalPages: int): (r: Option<int>)
    ensures r.Some? <==> ParseInt(input).Int? && 1 <= ParseInt(input).value <= totalPages
    ensures r.Some? ==> 0 <= r.value < totalPages && ParseInt(input) == Int(r.value + 1)
  {
    match ParseInt(input)
    case NaN => None
    case Int(n) => if n >= 1 && n <= totalPages then Some(n - 1) else None
  }

  /** Typing a page number that exists requests that page. */
  lemma TypedPageRequested(n: int, totalPages: int)
    requires 1 <= n <= totalPages
    ensures PageRequest(IntToString(n), totalPages) == Some(n - 1)
  {
    ParseIntRoundTrip(n);
  }

  /** A box that does not start with a number requests nothing. */
  lemma NonNumericIgnored(input: string, totalPages: int)
    requires ParseInt(input).NaN?
    ensures PageRequest(input, totalPages).None?
  {
  }

  /** The component's own state: the go-to-page box and the page size. */
  class TableState {
    var goToPage: string
    var pageSize: int

    /** The box starts empty; the page size is the caller's default, else 8. */
    constructor(defaultPageSize: Option<int>)
      ensures goToPage == ""
      ensures pageSize == defaultPageSize.GetOr(DefaultPageSize)
    {
      goToPage := "";
      pageSize := defaultPageSize.GetOr(DefaultPageSize);
    }

    /** Typing into the box. */
    method SetGoToPage(value: string)
      modifies this
      ensures goToPage == value && pageSize == old(pageSize)
    {
      goToPage := value;
    }

    /** Enter in the box: an accepted page number is requested and clears the box; any
        other input leaves everything as it was. The table discards the request (see
        `ShownPager`). */
    method HandleGoToPage(totalPages: int) returns (request: Option<int>)
      modifies this
      ensures request == PageRequest(old(goToPage), totalPages)
      ensures request.Some? ==> goToPage == ""
      ensures request.None? ==> goToPage == old(goToPage)
      ensures pageSize == old(pageSize)
    {
      var pageNum := ParseInt(goToPage);
      request := None;
      if pageNum.Int? && pageNum.value >= 1 && pageNum.value <= totalPages {
        request := Some(pageNum.value - 1);
        goToPage := "";
      }
    }
  }

  /** A numbered page button: its label, whether it is highlighted, and the page index it
      requests. */
  datatype PageButton = PageButton(number: int, active: bool, target: int)

  /** The pager: up to ten numbered buttons, then an ellipsis and a last-page button when
      there are more than ten pages, then a next button when there is more than one. */
  datatype Pager = Pager(buttons: seq<PageButton>, lastPage: Option<int>, next: bool)

  function PagerOf(totalPages: int, pageIndex: int): (p: Pager)
    ensures |p.buttons| == (if totalPages < 0 then 0 else if totalPages < 10 then totalPages else 10)
    ensures forall i :: 0 <= i < |p.buttons| ==> p.buttons[i].number == i + 1 && p.buttons[i].target == i
    ensures forall i :: 0 <= i < |p.buttons| ==> (p.buttons[i].active <==> i == pageIndex)
    ensures p.lastPage.Some? <==> totalPages > 10
    ensures p.lastPage.Some? ==> p.lastPage.value == totalPages - 1
    ensures p.next <==> totalPages > 1
  {
    var n := if totalPages < 0 then 0 else if totalPages < 10 then totalPages else 10;
    Pager(
      seq(n, i requires 0 <= i < n => PageButton(i + 1, pageIndex + 1 == i + 1, i)),
      if totalPages > 10 then Some(totalPages - 1) else None,
      totalPages > 1)
  }

  /** The table's page index as the component renders it: the controlled table state fixes
      it at 0 and no change handler is given, so every request to move is discarded. */
  const PinnedPageIndex: int := 0

  /** The pager as rendered: the first button is highlighted, whatever was requested. */
  function ShownPager(totalPages: int): (p: Pager)
    ensures |p.buttons| == (if totalPages < 0 then 0 else if totalPages < 10 then totalPages else 10)
    ensures forall i :: 0 <= i < |p.buttons| ==> (p.buttons[i].active <==> i == 0)
  {
    PagerOf(totalPages, PinnedPageIndex)
  }

  /** Going to page n (2 <= n <= 10) is accepted and requested, yet the pager still
      highlights page 1 and not page n. */
  lemma GoToPageStaysOnFirst(n: int, totalPages: int)
    requires 2 <= n <= totalPages && n <= 10
    ensures PageRequest(IntToString(n), totalPages) == Some(n - 1)
    ensures ShownPager(totalPages).buttons[0].active && !ShownPager(totalPages).buttons[n - 1].active
  {
    TypedPageRequested(n, totalPages);
  }

  /** The pager as evidently intended: the requested page, if any, becomes the current one. */
  function IntendedPager(totalPages: int, request: Option<int>, current: int): (p: Pager)
    ensures forall i :: 0 <= i < |p.buttons| ==> (p.buttons[i].active <==> i == request.GetOr(current))
  {
    PagerOf(totalPages, request.GetOr(current))
  }

  /** Under the intended behaviour, going to page n highlights exactly page n. */
  lemma GoToPageShowsRequested(n: int, totalPages: int, current: int)
    requires 1 <= n <= totalPages && n <= 10
    ensures forall i :: 0 <= i < |IntendedPager(totalPages, PageRequest(IntToString(n), totalPages), current).buttons| ==>
      (IntendedPager(totalPages, PageRequest(IntToString(n), totalPages), current).buttons[i].active <==> i == n - 1)
    ensures n - 1 < |IntendedPager(totalPages, PageRequest(IntToString(n), totalPages), current).buttons|
  {
    TypedPageRequested(n, totalPages);
  }

  /** At most one numbered button is highlighted, and the last-page button never repeats a
      numbered one. */
  lemma PagerButtonsDistinct(totalPages: int, pageIndex: int)
    ensures forall i, j :: 0 <= i < j < |PagerOf(totalPages, pageIndex).buttons| ==>
      !(PagerOf(totalPages, pageIndex).buttons[i].active && PagerOf(totalPages, pageIndex).buttons[j].active)
    ensures PagerOf(totalPages, pageIndex).lastPage.Some? ==>
      forall b :: b in PagerOf(totalPages, pageIndex).buttons ==> b.target != PagerOf(totalPages, pageIndex).lastPage.value
  {
  }
}
