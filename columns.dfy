/** The column records the grid works on, and the width map kept per
    column number. */
module Columns {
  import opened Wrappers

  /** The `width` setting of a column. `switch (c.width)` in the grid style
      singles out `autoFit` and `manual`; every other setting (`autoFill`)
      takes the default branch. */
  datatype WidthMode = AutoFit | Manual | AutoFill

  /** The fields of a grid column that the layout logic reads. Numbers are
      modelled as integers. */
  datatype GridColumn = GridColumn(
    columnNumber: int,
    width: WidthMode,
    weight: int,
    hidden: bool)

  /** Column number to resized width in pixels; `None` stands for an entry
      holding `undefined`, and a missing key reads as `undefined` too. */
  type ColumnWidthConfig = map<int, Option<int>>

  /** `resizeMap[columnNumber]`. */
  function ResizedWidth(resizeMap: ColumnWidthConfig, columnNumber: int): Option<int> {
    if columnNumber in resizeMap then resizeMap[columnNumber] else None
  }

  /** JavaScript truthiness of a width: `undefined` and `0` are falsy. */
  predicate Truthy(w: Option<int>) {
    w.Some? && w.value != 0
  }

  /** The column numbers, in column order. */
  function ColumnNumbers(columns: seq<GridColumn>): (r: seq<int>)
    ensures |r| == |columns|
    ensures forall i :: 0 <= i < |columns| ==> r[i] == columns[i].columnNumber
  {
    if columns == [] then [] else [columns[0].columnNumber] + ColumnNumbers(columns[1..])
  }

  /** `xs` is `ys` with some elements left out, the rest in the same order. */
  ghost predicate Subsequence<T>(xs: seq<T>, ys: seq<T>) {
    if xs == [] then true
    else if ys == [] then false
    else (xs[0] == ys[0] && Subsequence(xs[1..], ys[1..])) || Subsequence(xs, ys[1..])
  }
}
