# ngx-datatable column header: sorting, layout, drag targets and resize gesture

This project models, in Dafny, the column-header logic of the ngx-datatable
grid:

- the header component (`DataTableHeaderComponent`): the next sort list for a
  sort request (single and multi sort), the drag guard that suppresses a sort
  while a column is dragged, the clamp applied to a committed column width, the
  lookup of a flat column index in the three pinned groups (left, center,
  right), the flags `dragging`, `isTarget` and `targetMarkerContext` kept on the
  shared column objects, the per-group column counts, and the numbers behind
  each group's style (which group absorbs the scrollbar gutter, group widths,
  horizontal translations);
- the resize directive (`ResizeableDirective`): a state machine with
  `resizing`, a live-subscription flag and the element's inline style, driven by
  mouse-down, mouse-move, mouse-up and teardown.

Files: `base.dfy` (Option, Outcome, pins, per-group records), `sorting.dfy`
(pure sort-list recomputation), `layout.dfy` (pure group geometry and index
lookup), `header.dfy` (the `Column` and `HeaderComponent` classes),
`resizeable.dfy` (the `ResizeableDirective` class).

Conventions. JavaScript `undefined` is `None`. A handler that would throw a
TypeError (reading a field of a missing column or of an empty sort list)
returns `Threw` or `ok == false`, with whatever it wrote before the throw kept.
Pixel values are integers. DOM reads (whether the pressed element carries the
`resize-handle` class, `screenX`, `clientWidth`) and the scrollbar width are
parameters. Columns are objects (a class), because the header, the table and
the header cells share them and the header writes their flags in place.

What is proved, in short: the sort recomputation case by case, and read as a
map from property to direction, for a list with unique properties (at most
one entry in single mode), given that the previous value handed in is the
column's current direction and unless the request unsets a column that has
no entry, it sets exactly the requested column (multi mode) or leaves only
that column (single mode); with ordered bounds the resize clamp stays in
`[minWidth, maxWidth]` and is idempotent; `getColumn` is indexing into
left ++ center ++ right; exactly one group takes the gutter when the scrollbar
has a width, none otherwise, so when the total is the sum of the group widths
the styled widths add up to total plus gutter, and when in addition the right
group is non-empty or the scrollbar has no width the right group ends flush
with the viewport; the move test accepts everything without bounds and never
leaves bounds a gesture started in; a mouse-up emits once and only for a live
subscription, and teardown releases without emitting.

## Model

| member | source | states |
|---|---|---|
| `Sorting.LastSortIndex` | projects/swimlane/ngx-datatable/src/lib/components/header/header.component.ts:311-323 | the index is the last entry whose prop is the column's, with no later match, or 0 when no entry matches |
| `Sorting.FindSortIndex` | projects/swimlane/ngx-datatable/src/lib/components/header/header.component.ts:317-323 | the copying loop, where every match overwrites `idx`, ends on the last matching index (or 0) |
| `Sorting.RemoveAt` | projects/swimlane/ngx-datatable/src/lib/components/header/header.component.ts:326 | `splice(idx, 1)` shortens the list by one when idx is in range, keeps the entries before idx and shifts the later ones down; out of range it changes nothing |
| `Sorting.NextSorts` | projects/swimlane/ngx-datatable/src/lib/components/header/header.component.ts:310-338 | unset removes entry idx (an empty list stays empty); with a previous direction only entry idx's direction changes and an empty list throws; without one, single mode gives exactly the new entry and multi mode appends it last, length + 1, the old list unchanged before it |
| `Sorting.RemoveKeepsOthers` | projects/swimlane/ngx-datatable/src/lib/components/header/header.component.ts:325-326 | removing the column's entry from a list with unique props leaves the column without a direction, every other column's direction unchanged, props unique |
| `Sorting.RedirectKeepsOthers` | projects/swimlane/ngx-datatable/src/lib/components/header/header.component.ts:327-328 | the in-place direction write gives the column the new direction and no other column changes |
| `Sorting.AppendKeepsOthers` | projects/swimlane/ngx-datatable/src/lib/components/header/header.component.ts:334 | pushing an entry for an absent prop gives it its direction, keeps the others and keeps props unique |
| `Sorting.MultiSortStep` | projects/swimlane/ngx-datatable/src/lib/components/header/header.component.ts:310-338 | in multi mode, when prevValue is the column's current direction, a cycle step never throws, keeps props unique, sets the column's direction to newValue and leaves every other column's direction as it was |
| `Sorting.SingleSortStep` | projects/swimlane/ngx-datatable/src/lib/components/header/header.component.ts:325-334 | when prevValue is the column's current direction in the list and not both prevValue and newValue are unset, single mode turns a list of at most one entry into exactly `[{prop, newValue}]`, or `[]` when newValue is unset |
| `Sorting.UnsetAbsentDropsFirst` | projects/swimlane/ngx-datatable/src/lib/components/header/header.component.ts:311-326 | as written, unsetting a column with no entry removes entry 0, which belongs to another column |
| `Sorting.SingleSortCycle` | projects/swimlane/ngx-datatable/src/lib/components/header/header.component.ts:325-334 | single mode: [] then asc gives [a asc], then desc gives [a desc], then unset gives []; a request on b replaces [a asc] by [b asc] |
| `Layout.AmountsOf` | projects/swimlane/ngx-datatable/src/lib/components/header/header.component.ts:379-391 | the last group walked writes its own size under its pin; a pin no group has keeps the reset count 0 |
| `Layout.AmountsOfLastGroup` | projects/swimlane/ngx-datatable/src/lib/components/header/header.component.ts:379-391 | the count left for a pin is the size of the last group with that pin, or 0 if no group has it |
| `Layout.AmountsOfPinned` | projects/swimlane/ngx-datatable/src/lib/components/header/header.component.ts:379-391 | on the left, center and right groups the counts are exactly the three group sizes |
| `Layout.ColumnAt` | projects/swimlane/ngx-datatable/src/lib/components/header/header.component.ts:281-293 | for 0 <= i < total the result is element i of left ++ center ++ right; any other index gives undefined |
| `Layout.AbsorbingGroup` | projects/swimlane/ngx-datatable/src/lib/components/header/header.component.ts:393-413 | the chosen group is non-empty or the left one, and every group after it is empty |
| `Layout.ShouldAddExtraWidth` | projects/swimlane/ngx-datatable/src/lib/components/header/header.component.ts:393-413 | true exactly when the scrollbar width is non-zero and the group is the last non-empty one (left when all are empty): never with a zero scrollbar width, otherwise for exactly one group |
| `Layout.ExtraLastCellWidth` | projects/swimlane/ngx-datatable/src/lib/components/header/header.component.ts:374-377 | the extra width is 0 or the scrollbar width, and non-zero only for the absorbing group |
| `Layout.GutterAddedOnce` | projects/swimlane/ngx-datatable/src/lib/components/header/header.component.ts:374-413 | the three groups' extra widths add up to the scrollbar width |
| `Layout.StyleOf` | projects/swimlane/ngx-datatable/src/lib/components/header/header.component.ts:352-372 | only the left group is untranslated; the center group is translated by minus the scroll offset |
| `Layout.StyledWidthsSum` | projects/swimlane/ngx-datatable/src/lib/components/header/header.component.ts:352-377 | when the total is the sum of the group widths, the three styled widths add up to total plus scrollbar width |
| `Layout.RightGroupFlush` | projects/swimlane/ngx-datatable/src/lib/components/header/header.component.ts:365-369 | when the right group holds the gutter (or there is none), left width + center width + right translation + right width equals the inner width: the right group ends at the viewport's right edge |
| `Header.TargetMarker` | projects/swimlane/ngx-datatable/src/lib/components/header/header.component.ts:273-277 | no marker iff initialIndex == newIndex; dragFromRight iff initialIndex > newIndex; dragFromLeft iff initialIndex < newIndex |
| `Header.ClampWidth` | projects/swimlane/ngx-datatable/src/lib/components/header/header.component.ts:237-242 | minWidth if raw <= minWidth, else maxWidth if raw >= maxWidth, else raw, an unset bound never matching; with minWidth <= maxWidth the result lies in [minWidth, maxWidth] |
| `Header.ClampIdempotent` | projects/swimlane/ngx-datatable/src/lib/components/header/header.component.ts:237-242 | with ordered bounds, clamping a committed width again changes nothing |
| `Header.ResizeIntent` | projects/swimlane/ngx-datatable/src/lib/components/header/header.component.ts:236-249 | the intent carries the column, prevValue = column.width, notLimitedNewValue = raw width, newValue = the clamped width, inside [minWidth, maxWidth] when both are set and ordered |
| `Header.FirstWithId` | projects/swimlane/ngx-datatable/src/lib/components/header/header.component.ts:205 | the first column whose id is the model's, or none when no column has it |
| `Header.FindColumnById` | projects/swimlane/ngx-datatable/src/lib/components/header/header.component.ts:205 | the search loop stops at that first matching column |
| `Header.HeaderComponent.constructor` | projects/swimlane/ngx-datatable/src/lib/components/header/header.component.ts:159-171 | no columns or groups yet and all three counts 0 |
| `Header.HeaderComponent.SetColumns` | projects/swimlane/ngx-datatable/src/lib/components/header/header.component.ts:126-131 | stores the columns and groups and leaves the counts equal to the three group sizes |
| `Header.HeaderComponent.RecalculateColumnsAmount` | projects/swimlane/ngx-datatable/src/lib/components/header/header.component.ts:379-391 | the counts are reset to 0 and then hold the fold of the groups' sizes by pin (all 0 when there are no groups) |
| `Header.HeaderComponent.GetColumn` | projects/swimlane/ngx-datatable/src/lib/components/header/header.component.ts:281-293 | a column exactly for 0 <= index < total, and it is element index of left ++ center ++ right |
| `Header.HeaderComponent.OnTargetChanged` | projects/swimlane/ngx-datatable/src/lib/components/header/header.component.ts:263-279 | the previous target loses isTarget and its marker; the new target gets isTarget and TargetMarker(initialIndex, newIndex), its marker untouched when the drag is over its own column; only those two columns change; a missing column throws after the writes already done |
| `Header.HeaderComponent.OnColumnReordered` | projects/swimlane/ngx-datatable/src/lib/components/header/header.component.ts:252-261 | clears isTarget and the marker on the drop column and emits `{column: model, prevValue: prevIndex, newValue: newIndex}`; throws iff newIndex designates no column |
| `Header.HeaderComponent.OnLongPressStart` | projects/swimlane/ngx-datatable/src/lib/components/header/header.component.ts:192-195 | the pressed column is dragging and the event is recorded |
| `Header.HeaderComponent.OnLongPressEnd` | projects/swimlane/ngx-datatable/src/lib/components/header/header.component.ts:197-199 | the event is recorded and dragging is left set until the deferred reset |
| `Header.HeaderComponent.ReleaseDragging` | projects/swimlane/ngx-datatable/src/lib/components/header/header.component.ts:202-209 | the first column with the model's id, looked up in the current column list, stops dragging; every other column keeps its flag; an unset list throws |
| `Header.HeaderComponent.CalcNewSorts` | projects/swimlane/ngx-datatable/src/lib/components/header/header.component.ts:310-338 | an unset `sorts` becomes `[]`, the stored list is otherwise untouched, and the result is NextSorts of it |
| `Header.HeaderComponent.OnSort` | projects/swimlane/ngx-datatable/src/lib/components/header/header.component.ts:295-308 | a dragging column emits nothing and leaves `sorts` unchanged; otherwise one event carries NextSorts' result with the unchanged column, prevValue and newValue |
| `Resizeable.Accepts` | projects/swimlane/ngx-datatable/src/lib/directives/resizeable.directive.ts:114-117 | with both bounds falsy every width is accepted; an accepted width respects each set bound; a rejected one breaks one |
| `Resizeable.MoveWidth` | projects/swimlane/ngx-datatable/src/lib/directives/resizeable.directive.ts:110-122 | initialWidth + (screenX - mouseDownScreenX) when accepted, else initialWidth; a gesture starting within set bounds never returns a width outside them |
| `Resizeable.MoveWidthExample` | projects/swimlane/ngx-datatable/src/lib/directives/resizeable.directive.ts:110-122 | from width 100 with bounds 50..200, a travel of +30 gives 130 and a travel of +150 is rejected, leaving 100 |
| `Resizeable.ResizeableDirective.constructor` | projects/swimlane/ngx-datatable/src/lib/directives/resizeable.directive.ts:23-37 | not resizing, no subscription, empty initial widths |
| `Resizeable.ResizeableDirective.OnMousedown` | projects/swimlane/ngx-datatable/src/lib/directives/resizeable.directive.ts:72-108 | always snapshots the inline width, minWidth and maxWidth; only on the handle sets resizing and a live subscription capturing clientWidth and screenX; otherwise neither changes |
| `Resizeable.ResizeableDirective.Move` | projects/swimlane/ngx-datatable/src/lib/directives/resizeable.directive.ts:110-122 | returns MoveWidth and writes the element width only when the proposal is accepted; a rejected tick leaves it as it was |
| `Resizeable.ResizeableDirective.OnMouseMove` | projects/swimlane/ngx-datatable/src/lib/directives/resizeable.directive.ts:94-103 | without a live subscription nothing happens; with one the move is measured from the captured start, and the element width becomes the returned width exactly when the proposal is accepted, the style staying as it was otherwise |
| `Resizeable.ResizeableDirective.OnMouseup` | projects/swimlane/ngx-datatable/src/lib/directives/resizeable.directive.ts:63-70 | resizing ends and the subscription is gone; clientWidth is emitted exactly when a subscription was live, so a second mouse-up emits nothing |
| `Resizeable.ResizeableDirective.DestroySubscription` | projects/swimlane/ngx-datatable/src/lib/directives/resizeable.directive.ts:124-129 | afterwards no subscription is live |
| `Resizeable.ResizeableDirective.OnDestroy` | projects/swimlane/ngx-datatable/src/lib/directives/resizeable.directive.ts:54-55 | from any state, releases the subscription and emits nothing; `resizing` keeps its value |

## Left out

- The scrollbar width probe (`scrollbar-helper.service.ts`) measures the DOM; the width is a parameter.
- The three hooks of `column-resize.service.ts` (`afterMouseDown`, `afterMouseMove`, `afterMouseUp`) are empty and are not modelled; the directive emits nothing per move, only on mouse-up.
- `columnsByPin`, `columnsByPinArr` and `columnGroupWidths` from `utils/column` are not part of this model: the pinned groups and the group widths are inputs.
- The `setTimeout` deferral in the `innerWidth` and `columns` setters, `setStylesByGroup`, `totalHeaderWidth`, change detection and the `destroyed` flag that guards it; the style functions are modelled as pure functions of explicit inputs instead. The initial placeholder widths (`{total: 100}`, undefined inner width) that give NaN styles before the first recompute are not modelled.
- `translateXY` and CSS string building: translations and widths are integers; `headerHeight`/`headerWidth` string formatting; `trackByGroups`, `columnTrackingFn`; `onSelect`'s `instanceof Event` filter and the `columnContextmenu` pass-through.
- The 5 ms delay in `onLongPressEnd`: its callback is the separate method `ReleaseDragging`, run whenever the host's timer fires.
- Renderer2 creation and removal of the resize handle, and `stopPropagation`; whether the pressed element carries the `resize-handle` class (which `resizeEnabled` decides at creation) is the `isHandle` parameter.
- rxjs streams are one boolean. A second handle mouse-down while a subscription is live overwrites the source's subscription reference and leaves the earlier listeners attached; the flag does not model those orphaned listeners.
- Sort directions are `Asc`/`Desc`; a `prevValue` that is falsy in another way than `undefined` (empty string, null) is `None`, and a `null` `newValue` is not modelled.
- NaN indices and widths, and non-integer pixel values, are not modelled.
- `Header.HeaderComponent.GetColumn`: returns `None` both for an index outside the groups (source: `undefined`) and when no groups are set (source: a TypeError inside `getColumn`); every caller throws in both cases.
