/** The view state of the data grid widget that is derived from its column
    list and props: the initial hidden-column list and width map, the
    visible columns, the width update on resize, the sort parameters sent
    to the data source, the empty placeholder's span and the paging steps.
    The `useState` slots that hold this state are the fields of
    `GridViewState`. */
module Widget {
  import opened Wrappers
  import opened Css
  import opened Columns
  import opened GridTemplate

  /** The initial hidden-column list: the numbers of the columns flagged
      hidden, in column order, but only when columns are hidable and the
      widget is not in preview. */
  function InitialHiddenColumns(columns: seq<GridColumn>, columnsHidable: bool, preview: bool): (r: seq<int>)
    ensures !(columnsHidable && !preview) ==> r == []
    ensures forall n :: n in r <==>
              columnsHidable && !preview && exists c :: c in columns && c.hidden && c.columnNumber == n
    ensures Subsequence(r, ColumnNumbers(columns))
    ensures columnsHidable && !preview ==> |r| == HiddenFlagCount(columns)
  {
    if columns == [] then []
    else
      var c := columns[0];
      var rest := InitialHiddenColumns(columns[1..], columnsHidable, preview);
      assert ColumnNumbers(columns) == [c.columnNumber] + ColumnNumbers(columns[1..]);
      assert columns == [c] + columns[1..];
      if columnsHidable && c.hidden && !preview then
        assert ([c.columnNumber] + rest)[1..] == rest;
        [c.columnNumber] + rest
      else
        rest
  }

  /** How many columns are flagged hidden. */
  ghost function HiddenFlagCount(columns: seq<GridColumn>): nat {
    if columns == [] then 0 else (if columns[0].hidden then 1 else 0) + HiddenFlagCount(columns[1..])
  }

  /** The initial width map: an entry holding `undefined` for every column
      and no other entry. */
  function InitialColumnsWidth(columns: seq<GridColumn>): (r: ColumnWidthConfig)
    ensures forall c :: c in columns ==> c.columnNumber in r && r[c.columnNumber] == None
    ensures forall n :: n in r ==> exists c :: c in columns && c.columnNumber == n
  {
    var numbers := ColumnNumbers(columns);
    assert forall c :: c in columns ==> c.columnNumber in numbers by {
      forall c | c in columns ensures c.columnNumber in numbers {
        var i :| 0 <= i < |columns| && columns[i] == c;
        assert numbers[i] == c.columnNumber;
      }
    }
    map n | n in numbers :: None
  }

  /** The columns whose number is not in the hidden list, in column order
      (before the reordering by the user's column order). */
  function VisibleColumns(columns: seq<GridColumn>, hiddenColumns: seq<int>): (r: seq<GridColumn>)
    ensures forall c :: c in r <==> c in columns && c.columnNumber !in hiddenColumns
    ensures Subsequence(r, columns)
    ensures |r| <= |columns|
    ensures |r| == |columns| <==> forall c :: c in columns ==> c.columnNumber !in hiddenColumns
  {
    if columns == [] then []
    else
      var c := columns[0];
      var rest := VisibleColumns(columns[1..], hiddenColumns);
      assert columns == [c] + columns[1..];
      if c.columnNumber !in hiddenColumns then
        assert ([c] + rest)[1..] == rest;
        [c] + rest
      else
        rest
  }

  /** A sorting rule as the settings keep it. */
  datatype SortingRule = SortingRule(columnNumber: int, desc: bool)

  /** The sort parameters handed to the data source. */
  datatype SortProperty = SortProperty(columnIndex: int, desc: bool)

  /** Only the first sorting rule is forwarded; no rule forwards `undefined`. */
  function SortParameters(sortBy: seq<SortingRule>): (r: Option<SortProperty>)
    ensures r == None <==> sortBy == []
    ensures r.Some? ==> r.value.columnIndex == sortBy[0].columnNumber && r.value.desc == sortBy[0].desc
  {
    if sortBy == [] then None
    else
      var sortingRule := sortBy[0];
      Some(SortProperty(sortingRule.columnNumber, sortingRule.desc))
  }

  /** Rules after the first have no effect on the forwarded parameters. */
  lemma OnlyFirstRuleForwarded(rule: SortingRule, rest: seq<SortingRule>)
    ensures SortParameters([rule] + rest) == SortParameters([rule])
  {
  }

  /** The span of the empty placeholder: every column, hidden ones
      included, plus the selector and checkbox columns when shown. */
  function EmptyPlaceholderColspan(columns: seq<GridColumn>, columnsHidable: bool, showCheckboxColumn: bool): nat {
    |columns| + (if columnsHidable then 1 else 0) + (if showCheckboxColumn then 1 else 0)
  }

  /** The options the grid style is computed with. */
  function GridOptions(columnsHidable: bool, showCheckboxColumn: bool): OptionalColumns {
    OptionalColumns(selectItemColumn := showCheckboxColumn, visibilitySelectorColumn := columnsHidable)
  }

  /** The placeholder spans as many tracks as the grid style would have if
      no column were hidden. */
  lemma ColspanMatchesAllColumnsTracks(columns: seq<GridColumn>, resizeMap: ColumnWidthConfig,
                                       columnsHidable: bool, showCheckboxColumn: bool)
    ensures EmptyPlaceholderColspan(columns, columnsHidable, showCheckboxColumn)
            == |SizeTokens(columns, resizeMap, GridOptions(columnsHidable, showCheckboxColumn))|
  {
  }

  /** Against the tracks actually laid out (visible columns only), the
      placeholder never spans fewer, and spans exactly as many iff no column
      is hidden. */
  lemma ColspanCoversVisibleTracks(columns: seq<GridColumn>, hiddenColumns: seq<int>, resizeMap: ColumnWidthConfig,
                                   columnsHidable: bool, showCheckboxColumn: bool)
    ensures |SizeTokens(VisibleColumns(columns, hiddenColumns), resizeMap, GridOptions(columnsHidable, showCheckboxColumn))|
            <= EmptyPlaceholderColspan(columns, columnsHidable, showCheckboxColumn)
    ensures |SizeTokens(VisibleColumns(columns, hiddenColumns), resizeMap, GridOptions(columnsHidable, showCheckboxColumn))|
            == EmptyPlaceholderColspan(columns, columnsHidable, showCheckboxColumn)
            <==> forall c :: c in columns ==> c.columnNumber !in hiddenColumns
  {
  }

  /** The checkbox column's track comes first exactly when the checkbox
      column is shown, and the column selector's track comes last exactly
      when columns are hidable. */
  lemma GridOptionsPlaceOptionalTracks(columns: seq<GridColumn>, resizeMap: ColumnWidthConfig,
                                       columnsHidable: bool, showCheckboxColumn: bool)
    ensures var tokens := SizeTokens(columns, resizeMap, GridOptions(columnsHidable, showCheckboxColumn));
            showCheckboxColumn <==> |tokens| > 0 && tokens[0] == SelectItemTrack
    ensures var tokens := SizeTokens(columns, resizeMap, GridOptions(columnsHidable, showCheckboxColumn));
            columnsHidable <==> |tokens| > 0 && tokens[|tokens| - 1] == VisibilitySelectorTrack
  {
    OptionalTracksAtEnds(columns, resizeMap, GridOptions(columnsHidable, showCheckboxColumn));
  }

  /** Resizing column `columnNumber` changes the track of that column only;
      a non-zero width becomes its pixel track. */
  lemma ResizeChangesOnlyThatColumn(resizeMap: ColumnWidthConfig, columnNumber: int, width: int, c: GridColumn)
    ensures c.columnNumber != columnNumber ==>
              ColumnSize(c, resizeMap[columnNumber := Some(width)]) == ColumnSize(c, resizeMap)
    ensures c.columnNumber == columnNumber && width != 0 ==>
              ParseTrack(ColumnSize(c, resizeMap[columnNumber := Some(width)])) == Some(Px(width))
  {
    if c.columnNumber == columnNumber && width != 0 {
      ResizedWidthTakesPrecedence(c, resizeMap[columnNumber := Some(width)], c.width, c.weight);
    }
  }

  /** Before any resize, every column's track is its width mode's default. */
  lemma InitialTracksFollowWidthMode(columns: seq<GridColumn>, c: GridColumn)
    requires c in columns
    ensures c.width == AutoFit ==>
              ParseTrack(ColumnSize(c, InitialColumnsWidth(columns))) == Some(FitContentPercent(100))
    ensures c.width == Manual ==> ParseTrack(ColumnSize(c, InitialColumnsWidth(columns))) == Some(Fr(c.weight))
    ensures c.width == AutoFill ==> ParseTrack(ColumnSize(c, InitialColumnsWidth(columns))) == Some(Fr(1))
  {
    WidthModeDecides(c, InitialColumnsWidth(columns));
  }

  /** The previous-page control is enabled iff the rendered page is not the
      first. */
  predicate CanPreviousPage(page: int) {
    page != 0
  }

  /** The page update of the next-page control. */
  function NextPage(prev: int): (r: int)
    ensures r > prev
  {
    prev + 1
  }

  /** The page update of the previous-page control. */
  function PreviousPage(prev: int): (r: int)
    ensures r < prev
  {
    prev - 1
  }

  /** The page update of the go-to-page control ignores the previous page. */
  function GotoPage(page: int, prev: int): int {
    page
  }

  /** A click on the next or previous control; a next click carries
      `hasMoreItems`, which enables that control, at the time of the click. */
  datatype PagingClick = NextClick(hasMoreItems: bool) | PreviousClick

  /** The page after one click. The control is enabled or disabled by the
      rendered `page`, while the update is applied to `prev`, the page the
      parent's `setPage` holds; a disabled control changes nothing. */
  function Click(page: int, prev: int, click: PagingClick): int {
    match click
    case NextClick(hasMoreItems) => if hasMoreItems then NextPage(prev) else prev
    case PreviousClick => if CanPreviousPage(page) then PreviousPage(prev) else prev
  }

  /** Clicks one after another, each on a widget re-rendered with the page
      the click before it produced, so that `prev` and `page` agree. */
  function ClickAll(page: int, clicks: seq<PagingClick>): int
    decreases clicks
  {
    if clicks == [] then page else ClickAll(Click(page, page, clicks[0]), clicks[1..])
  }

  /** When the parent's page agrees with the rendered page, an enabled
      previous-page click from a non-negative page stays non-negative. */
  lemma PreviousPageStaysNonNegative(page: int, prev: int)
    requires page >= 0 && CanPreviousPage(page) && prev == page
    ensures Click(page, prev, PreviousClick) >= 0
  {
  }

  /** Without that agreement the guard does not protect the update: a
      rendered page 1 enables going back from a parent's page 0. */
  lemma StalePreviousPageGoesNegative()
    ensures CanPreviousPage(1) && Click(1, 0, PreviousClick) < 0
  {
  }

  /** Starting from a non-negative page, any sequence of next and previous
      clicks keeps the page non-negative. */
  lemma {:induction false} ClicksKeepPageNonNegative(page: int, clicks: seq<PagingClick>)
    requires page >= 0
    ensures ClickAll(page, clicks) >= 0
    decreases clicks
  {
    if clicks != [] {
      ClicksKeepPageNonNegative(Click(page, page, clicks[0]), clicks[1..]);
    }
  }

  /** The widget's state slots. Each setter replaces its slot, except the
      resize setter, which writes one entry of the width map. */
  class GridViewState {
    const columns: seq<GridColumn>
    var columnOrder: seq<int>
    var hiddenColumns: seq<int>
    var sortBy: seq<SortingRule>
    var columnsWidth: ColumnWidthConfig

    /** Every column has an entry in the width map. */
    ghost predicate WidthsCoverColumns()
      reads this
    {
      forall c :: c in columns ==> c.columnNumber in columnsWidth
    }

    constructor (columns: seq<GridColumn>, columnsHidable: bool, preview: bool)
      ensures this.columns == columns
      ensures columnOrder == [] && sortBy == []
      ensures hiddenColumns == InitialHiddenColumns(columns, columnsHidable, preview)
      ensures columnsWidth == InitialColumnsWidth(columns)
      ensures WidthsCoverColumns()
    {
      this.columns := columns;
      columnOrder := [];
      hiddenColumns := InitialHiddenColumns(columns, columnsHidable, preview);
      sortBy := [];
      columnsWidth := InitialColumnsWidth(columns);
    }

    /** Sets the width of one column; every other entry keeps its value. */
    method SetColumnWidth(columnNumber: int, width: int)
      modifies this`columnsWidth
      ensures columnsWidth.Keys == old(columnsWidth).Keys + {columnNumber}
      ensures columnsWidth[columnNumber] == Some(width)
      ensures forall n :: n in old(columnsWidth) && n != columnNumber ==> columnsWidth[n] == old(columnsWidth)[n]
      ensures old(WidthsCoverColumns()) ==> WidthsCoverColumns()
    {
      var prev := columnsWidth;
      prev := prev[columnNumber := Some(width)];
      columnsWidth := prev;
    }

    method SetColumnOrder(newOrder: seq<int>)
      modifies this`columnOrder
      ensures columnOrder == newOrder
    {
      columnOrder := newOrder;
    }

    method SetHiddenColumns(newHidden: seq<int>)
      modifies this`hiddenColumns
      ensures hiddenColumns == newHidden
    {
      hiddenColumns := newHidden;
    }

    method SetSortBy(newSortBy: seq<SortingRule>)
      modifies this`sortBy
      ensures sortBy == newSortBy
    {
      sortBy := newSortBy;
    }
  }
}
