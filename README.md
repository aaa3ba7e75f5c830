# Data grid layout and view state

A Dafny model of the column layout and view-state logic of the data grid
widget (`packages/pluggableWidgets/datagrid-web/src/components/Widget.tsx`): the CSS `grid-template-columns` value built by
`gridStyle`, the initial hidden-column list and width map, the visible
columns, the width update when a column is resized, the sort parameters
forwarded to the data source, the span of the empty placeholder and the
paging steps.

Modules, one per concern:

- `Wrappers` (wrappers.dfy): `Option`, where `None` stands for `undefined`.
- `Decimal` (decimal.dfy): rendering an integer the way a template literal
  renders an integral number, and a parser that reads it back.
- `Css` (css.dfy): track-size tokens (`<n>px`, `<n>fr`, `fit-content(...)`)
  with a renderer and a parser, and `join(" ")` with a space splitter
  `Words`. `Words` differs from `split(" ")` on the empty string (no
  tokens rather than one empty token), and undoes `join(" ")` only for
  non-empty tokens without spaces, which every track token is. The parsers
  give the emitted text its meaning: properties of the grid style are
  stated about what these readers get back from the string. `ParseTrack`
  accepts negative `px` and `fr` sizes, which CSS itself rejects.
- `Columns` (columns.dfy): the column record (`columnNumber`, width mode,
  weight, hidden flag), the width map and JavaScript truthiness of a width.
- `GridTemplate` (grid_template.dfy): `gridStyle` and its `OptionalColumns`.
- `Widget` (widget.dfy): the derivations inside the `Widget` component and
  a class `GridViewState` whose fields are the component's `useState` slots.

The widget code is followed where a stricter contract could be expected:
a resize accepts any width, including zero, negative widths and widths
for `autoFit` columns; a zero width is falsy and falls back to the width
mode's track; a resized `autoFit` column gets a pixel track. The width
map is keyed by column number and starts with an `undefined` entry per
column.

## Model

| member | source | states |
|---|---|---|
| Decimal.IntToStringParses | packages/pluggableWidgets/datagrid-web/src/components/Widget.tsx:336-342 | the number written into a `px` or `fr` token reads back as the same integer |
| Css.RenderTrackRoundTrip | packages/pluggableWidgets/datagrid-web/src/components/Widget.tsx:336-344 | every track-size token the grid can write reads back as the track it was written from |
| Css.WordsOfJoin | packages/pluggableWidgets/datagrid-web/src/components/Widget.tsx:360-362 | joining space-free, non-empty tokens with single spaces and splitting the result gives the same tokens, in order |
| Css.Join | packages/pluggableWidgets/datagrid-web/src/components/Widget.tsx:361 | `join(" ")`: the joined string starts with the first token |
| GridTemplate.ColumnSize | packages/pluggableWidgets/datagrid-web/src/components/Widget.tsx:333-346 | each column's size is one non-empty token without spaces, so it stays one track in the template |
| Columns.ResizedWidth | packages/pluggableWidgets/datagrid-web/src/components/Widget.tsx:334 | `resizeMap[columnNumber]`: a missing key reads as undefined |
| Columns.Truthy | packages/pluggableWidgets/datagrid-web/src/components/Widget.tsx:335 | a resized width counts only when present and non-zero, as JavaScript truthiness of a number |
| GridTemplate.GridStyle | packages/pluggableWidgets/datagrid-web/src/components/Widget.tsx:332-363 | the template string, split on spaces, is exactly the checkbox track (if enabled), the columns' tracks in column order, then the selector track (if enabled) |
| GridTemplate.ColumnSizes | packages/pluggableWidgets/datagrid-web/src/components/Widget.tsx:333-346 | one size per column, in column order |
| GridTemplate.SizeTokens | packages/pluggableWidgets/datagrid-web/src/components/Widget.tsx:348-358 | the tracks the template is meant to hold: checkbox track if enabled, column sizes, selector track if enabled |
| GridTemplate.SizeTokensPerColumn | packages/pluggableWidgets/datagrid-web/src/components/Widget.tsx:333-358 | the token count is the column count plus one per enabled optional column, and token `offset + i` is the size of column `i` |
| GridTemplate.OptionalTracksAtEnds | packages/pluggableWidgets/datagrid-web/src/components/Widget.tsx:350-358 | `fit-content(48px)` is the first token exactly when the checkbox column is enabled, and `fit-content(50px)` the last exactly when the selector column is enabled |
| GridTemplate.OptionalTracksParse | packages/pluggableWidgets/datagrid-web/src/components/Widget.tsx:350-358 | the two optional tracks read as `fit-content` limits of 48 and 50 pixels |
| GridTemplate.ColumnSizeIsNoOptionalTrack | packages/pluggableWidgets/datagrid-web/src/components/Widget.tsx:333-358 | no column's track can equal `fit-content(48px)` or `fit-content(50px)`, so the optional tracks are recognisable |
| GridTemplate.ResizedWidthTakesPrecedence | packages/pluggableWidgets/datagrid-web/src/components/Widget.tsx:334-337 | a truthy resized width `w` yields the track `w px`, and the width mode and weight then make no difference |
| GridTemplate.WidthModeDecides | packages/pluggableWidgets/datagrid-web/src/components/Widget.tsx:338-345 | with no truthy resized width (absent, undefined or zero), `autoFit` gives `fit-content(100%)`, `manual` gives the weight in `fr`, any other mode `1fr` |
| Widget.InitialHiddenColumns | packages/pluggableWidgets/datagrid-web/src/components/Widget.tsx:116-118 | empty unless columns are hidable and not in preview; then a number is in the list iff some column with that number is flagged hidden, the list has one entry per flagged column and follows column order |
| Widget.InitialColumnsWidth | packages/pluggableWidgets/datagrid-web/src/components/Widget.tsx:120-122 | the width map has a key for every column's number, each holding undefined, and no other key |
| Widget.InitialTracksFollowWidthMode | packages/pluggableWidgets/datagrid-web/src/components/Widget.tsx:120-122 | before any resize, every column's track is its width mode's default |
| Widget.VisibleColumns | packages/pluggableWidgets/datagrid-web/src/components/Widget.tsx:187-191 | a column is visible iff its number is not in the hidden list; visible columns keep column order; there are as many visible columns as columns iff none is hidden |
| Widget.SortParameters | packages/pluggableWidgets/datagrid-web/src/components/Widget.tsx:143-153 | no rules forward undefined and only no rules do; otherwise the first rule's column number and direction are forwarded |
| Widget.OnlyFirstRuleForwarded | packages/pluggableWidgets/datagrid-web/src/components/Widget.tsx:144-149 | rules after the first do not change what is forwarded |
| Widget.EmptyPlaceholderColspan | packages/pluggableWidgets/datagrid-web/src/components/Widget.tsx:300-303 | every column, hidden ones included, plus one for the selector column when hidable and one for the checkbox column when shown |
| Widget.ColspanMatchesAllColumnsTracks | packages/pluggableWidgets/datagrid-web/src/components/Widget.tsx:300-303 | the placeholder spans every column, hidden ones included, plus the selector and checkbox columns: as many tracks as the grid style has when nothing is hidden |
| Widget.GridOptions | packages/pluggableWidgets/datagrid-web/src/components/Widget.tsx:208-211 | the grid style's optional columns: the checkbox column from `showCheckboxColumn`, the selector column from `columnsHidable` |
| Widget.GridOptionsPlaceOptionalTracks | packages/pluggableWidgets/datagrid-web/src/components/Widget.tsx:206-213 | with these options the first track is the checkbox track exactly when the checkbox column is shown, and the last track the selector track exactly when columns are hidable |
| Widget.ColspanCoversVisibleTracks | packages/pluggableWidgets/datagrid-web/src/components/Widget.tsx:300-303 | the placeholder never spans fewer tracks than the grid lays out, and spans exactly as many iff no column is hidden |
| Widget.ResizeChangesOnlyThatColumn | packages/pluggableWidgets/datagrid-web/src/components/Widget.tsx:254-258 | writing the width of column `k` leaves every other column's track unchanged and gives column `k` the pixel track of a non-zero width |
| Widget.NextPage | packages/pluggableWidgets/datagrid-web/src/components/Widget.tsx:198 | the next-page step moves to a later page |
| Widget.PreviousPage | packages/pluggableWidgets/datagrid-web/src/components/Widget.tsx:202 | the previous-page step moves to an earlier page |
| Widget.GotoPage | packages/pluggableWidgets/datagrid-web/src/components/Widget.tsx:197 | the go-to-page update yields the requested page whatever the previous page |
| Widget.Click | packages/pluggableWidgets/datagrid-web/src/components/Widget.tsx:196-202 | one click: the rendered page enables the control (previous iff the page is not 0, next iff there are more items), the update applies to the parent's previous page |
| Widget.ClickAll | packages/pluggableWidgets/datagrid-web/src/components/Widget.tsx:196-202 | clicks applied one after another, each after a re-render with the page the previous click produced |
| Widget.ClicksKeepPageNonNegative | packages/pluggableWidgets/datagrid-web/src/components/Widget.tsx:196-202 | from a non-negative page, every sequence of next and previous clicks keeps the page non-negative |
| Widget.CanPreviousPage | packages/pluggableWidgets/datagrid-web/src/components/Widget.tsx:196 | going back is enabled iff the rendered page is not 0 |
| Widget.PreviousPageStaysNonNegative | packages/pluggableWidgets/datagrid-web/src/components/Widget.tsx:196-202 | when the parent's page equals the rendered page, an enabled previous-page click from a non-negative page stays non-negative |
| Widget.StalePreviousPageGoesNegative | packages/pluggableWidgets/datagrid-web/src/components/Widget.tsx:196-202 | the guard reads the rendered page and the update the parent's page: a rendered page 1 with a parent's page 0 goes to -1 |
| Widget.GridViewState.constructor | packages/pluggableWidgets/datagrid-web/src/components/Widget.tsx:115-122 | the state starts with no column order, no sorting rules, the initial hidden list and the initial width map, which covers every column |
| Widget.GridViewState.SetColumnWidth | packages/pluggableWidgets/datagrid-web/src/components/Widget.tsx:254-258 | only the entry of the resized column changes, to the new width; every column keeps an entry |
| Widget.GridViewState.SetColumnOrder | packages/pluggableWidgets/datagrid-web/src/components/Widget.tsx:262 | the column order is replaced by the new order |
| Widget.GridViewState.SetHiddenColumns | packages/pluggableWidgets/datagrid-web/src/components/Widget.tsx:279 | the hidden list is replaced wholesale |
| Widget.GridViewState.SetSortBy | packages/pluggableWidgets/datagrid-web/src/components/Widget.tsx:265 | the sorting rules are replaced wholesale |

## Left out

- Widget.VisibleColumns: gives the visible columns in column order; the reordering by `sortColumns` (`packages/pluggableWidgets/datagrid-web/src/helpers/utils`) is not part of this model, so the model states the visible columns as a set and their count, not their final order.
- The settings hook `useSettings` and its `updateSettings` effect (`packages/pluggableWidgets/datagrid-web/src/features/settings`) are not part of this model: persisting, restoring and reconciling column order, hidden columns, sorting and widths happen there.
- React rendering, the header, row, selector and resizer components, drag state, the export progress dialog, the `document.body` pointer-events effect, `window.__abort` and console logging: user-interface and host plumbing with no layout logic.
- Numbers are integers: fractional widths and weights, `NaN` and JavaScript's exponent notation for large numbers are not modelled; `valueForSort` and its `Big`/`Date` values are left out.
- Widget.GridViewState.SetColumnWidth: the map is a value, so the in-place write into the previous state object (which the copy then leaves shared with React's previous state) is not captured, only the new map.
- Widget.PreviousPageStaysNonNegative: holds only when the page the parent's `setPage` passes to the update equals the rendered `page` that enabled the control; the parent is not part of this model, and `Widget.StalePreviousPageGoesNegative` shows the page going below 0 when they differ. `Widget.ClickAll` makes the same assumption between clicks.
- The go-to-page target comes from the pagination component, which is not part of this model, so `Widget.ClickAll` covers next and previous clicks only.
- Optional callbacks `setPage` and `setSortParameters`: when absent nothing happens; the model gives the value that would be passed to them.
- `canNextPage` is `hasMoreItems` passed through, and `isInfinite`/`showTopBar` only choose what is rendered; none has logic to model.
