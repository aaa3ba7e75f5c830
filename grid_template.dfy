/** `gridStyle`: the CSS `grid-template-columns` value of the data grid,
    one track per visible column, preceded by the checkbox column's track
    and followed by the column selector's track when those are shown. */
module GridTemplate {
  import opened Wrappers
  import opened Decimal
  import opened Css
  import opened Columns

  /** Which optional columns surround the data columns (`undefined` reads
      as `false`). */
  datatype OptionalColumns = OptionalColumns(
    selectItemColumn: bool,
    visibilitySelectorColumn: bool)

  datatype CssProperties = CssProperties(gridTemplateColumns: string)

  const SelectItemTrack: string := "fit-content(48px)"
  const VisibilitySelectorTrack: string := "fit-content(50px)"

  /** The size token of one column: a truthy resized width wins, otherwise
      the column's width mode decides. */
  function ColumnSize(c: GridColumn, resizeMap: ColumnWidthConfig): (r: string)
    ensures IsWord(r)
  {
    var columnResizedSize := ResizedWidth(resizeMap, c.columnNumber);
    if Truthy(columnResizedSize) then
      IntToString(columnResizedSize.value) + "px"
    else
      match c.width
      case AutoFit => "fit-content(100%)"
      case Manual => IntToString(c.weight) + "fr"
      case AutoFill => "1fr"
  }

  /** `columns.map(...)`: one size token per column. */
  function ColumnSizes(columns: seq<GridColumn>, resizeMap: ColumnWidthConfig): seq<string> {
    seq(|columns|, i requires 0 <= i < |columns| => ColumnSize(columns[i], resizeMap))
  }

  /** The tokens of the template, in order. */
  function SizeTokens(columns: seq<GridColumn>, resizeMap: ColumnWidthConfig, optional: OptionalColumns): seq<string> {
    (if optional.selectItemColumn then [SelectItemTrack] else [])
    + ColumnSizes(columns, resizeMap)
    + (if optional.visibilitySelectorColumn then [VisibilitySelectorTrack] else [])
  }

  /** Number of tokens before the first data column's token. */
  function Offset(optional: OptionalColumns): nat {
    if optional.selectItemColumn then 1 else 0
  }

  /** Builds the template by pushing onto a local list, then joins it with
      single spaces; reading the result back yields exactly `SizeTokens`. */
  method GridStyle(columns: seq<GridColumn>, resizeMap: ColumnWidthConfig, optional: OptionalColumns)
    returns (style: CssProperties)
    ensures Words(style.gridTemplateColumns) == SizeTokens(columns, resizeMap, optional)
  {
    var columnSizes := ColumnSizes(columns, resizeMap);
    var sizes: seq<string> := [];
    if optional.selectItemColumn {
      sizes := sizes + [SelectItemTrack];
    }
    sizes := sizes + columnSizes;
    if optional.visibilitySelectorColumn {
      sizes := sizes + [VisibilitySelectorTrack];
    }
    assert sizes == SizeTokens(columns, resizeMap, optional);
    assert IsWord(SelectItemTrack) && IsWord(VisibilitySelectorTrack);
    WordsOfJoin(sizes);
    style := CssProperties(Join(sizes));
  }

  /** The optional columns' tracks read as the `fit-content` limits the
      grid intends: 48 pixels for the checkbox, 50 for the selector. */
  lemma OptionalTracksParse()
    ensures ParseTrack(SelectItemTrack) == Some(FitContentPx(48))
    ensures ParseTrack(VisibilitySelectorTrack) == Some(FitContentPx(50))
  {
    assert NatToString(4) == "4" && NatToString(48) == "48";
    assert NatToString(5) == "5" && NatToString(50) == "50";
    assert SelectItemTrack == RenderTrack(FitContentPx(48));
    assert VisibilitySelectorTrack == RenderTrack(FitContentPx(50));
    RenderTrackRoundTrip(FitContentPx(48));
    RenderTrackRoundTrip(FitContentPx(50));
  }

  /** One token per column plus one per enabled optional column, and the
      data columns' tokens keep the columns' order. */
  lemma SizeTokensPerColumn(columns: seq<GridColumn>, resizeMap: ColumnWidthConfig, optional: OptionalColumns)
    ensures |SizeTokens(columns, resizeMap, optional)|
            == |columns| + (if optional.selectItemColumn then 1 else 0)
                         + (if optional.visibilitySelectorColumn then 1 else 0)
    ensures forall i :: 0 <= i < |columns| ==>
              SizeTokens(columns, resizeMap, optional)[Offset(optional) + i] == ColumnSize(columns[i], resizeMap)
  {
  }

  /** The checkbox track is the first token exactly when it is enabled,
      and the column selector's track the last exactly when it is enabled:
      no column's own track can be mistaken for either. */
  lemma OptionalTracksAtEnds(columns: seq<GridColumn>, resizeMap: ColumnWidthConfig, optional: OptionalColumns)
    ensures optional.selectItemColumn <==>
              |SizeTokens(columns, resizeMap, optional)| > 0 && SizeTokens(columns, resizeMap, optional)[0] == SelectItemTrack
    ensures optional.visibilitySelectorColumn <==>
              |SizeTokens(columns, resizeMap, optional)| > 0
              && SizeTokens(columns, resizeMap, optional)[|SizeTokens(columns, resizeMap, optional)| - 1]
                 == VisibilitySelectorTrack
  {
    var tokens := SizeTokens(columns, resizeMap, optional);
    assert SelectItemTrack != VisibilitySelectorTrack by {
      assert SelectItemTrack[13] != VisibilitySelectorTrack[13];
    }
    if |columns| > 0 {
      SizeTokensPerColumn(columns, resizeMap, optional);
      ColumnSizeIsNoOptionalTrack(columns[0], resizeMap);
      ColumnSizeIsNoOptionalTrack(columns[|columns| - 1], resizeMap);
      assert !optional.selectItemColumn ==> tokens[0] == ColumnSize(columns[0], resizeMap);
      assert !optional.visibilitySelectorColumn ==>
               tokens[|tokens| - 1] == ColumnSize(columns[|columns| - 1], resizeMap);
    }
  }

  /** A column's own track is never one of the optional columns' tracks. */
  lemma ColumnSizeIsNoOptionalTrack(c: GridColumn, resizeMap: ColumnWidthConfig)
    ensures ColumnSize(c, resizeMap) != SelectItemTrack
    ensures ColumnSize(c, resizeMap) != VisibilitySelectorTrack
  {
    OptionalTracksParse();
    if Truthy(ResizedWidth(resizeMap, c.columnNumber)) {
      ResizedWidthTakesPrecedence(c, resizeMap, c.width, c.weight);
    } else {
      WidthModeDecides(c, resizeMap);
    }
  }

  /** A truthy resized width `w` yields the track `w px`, whatever the
      column's width mode and weight. */
  lemma ResizedWidthTakesPrecedence(c: GridColumn, resizeMap: ColumnWidthConfig, mode: WidthMode, weight: int)
    requires Truthy(ResizedWidth(resizeMap, c.columnNumber))
    ensures ParseTrack(ColumnSize(c, resizeMap)) == Some(Px(ResizedWidth(resizeMap, c.columnNumber).value))
    ensures ColumnSize(c.(width := mode, weight := weight), resizeMap) == ColumnSize(c, resizeMap)
  {
    RenderTrackRoundTrip(Px(ResizedWidth(resizeMap, c.columnNumber).value));
  }

  /** Without a truthy resized width (absent, `undefined` or `0`), the width
      mode decides: `autoFit` fits the content, `manual` takes the weight as
      a fraction, and any other mode takes one fraction. */
  lemma WidthModeDecides(c: GridColumn, resizeMap: ColumnWidthConfig)
    requires !Truthy(ResizedWidth(resizeMap, c.columnNumber))
    ensures c.width == AutoFit ==> ParseTrack(ColumnSize(c, resizeMap)) == Some(FitContentPercent(100))
    ensures c.width == Manual ==> ParseTrack(ColumnSize(c, resizeMap)) == Some(Fr(c.weight))
    ensures c.width == AutoFill ==> ParseTrack(ColumnSize(c, resizeMap)) == Some(Fr(1))
  {
    match c.width
    case AutoFit =>
      assert ColumnSize(c, resizeMap) == RenderTrack(FitContentPercent(100));
      RenderTrackRoundTrip(FitContentPercent(100));
    case Manual =>
      RenderTrackRoundTrip(Fr(c.weight));
    case AutoFill =>
      assert ColumnSize(c, resizeMap) == RenderTrack(Fr(1));
      RenderTrackRoundTrip(Fr(1));
  }
}
