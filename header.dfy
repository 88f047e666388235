/** The datatable header (`DataTableHeaderComponent`): it turns sort
    requests into the next sort list, clamps committed column widths, maps
    flat drag indices onto the pinned groups, and keeps the drag and
    drop-target flags on the column objects it shares with the table. */
module Header {
  import opened Base
  import opened Sorting
  import opened Layout

  /** The side a dragged column approaches its target from; the header
      renders it as the `targetMarker dragFromLeft|dragFromRight` class. */
  datatype Marker = DragFromLeft | DragFromRight

  /** The marker `onTargetChanged` puts on the new target: none over the
      column the drag started from, otherwise the side of approach. */
  function TargetMarker(initialIndex: int, newIndex: int): (m: Option<Marker>)
    ensures m.None? <==> initialIndex == newIndex
    ensures m == Some(DragFromRight) <==> initialIndex > newIndex
    ensures m == Some(DragFromLeft) <==> initialIndex < newIndex
  {
    if initialIndex == newIndex then None
    else Some(if initialIndex > newIndex then DragFromRight else DragFromLeft)
  }

  /** The clamp `onColumnResized` applies to a committed width. The minimum is
      tested first; an unset bound never matches, as a comparison with
      `undefined` is false. */
  function ClampWidth(width: int, minWidth: Option<int>, maxWidth: Option<int>): (w: int)
    ensures w == width || (minWidth.Some? && w == minWidth.value) || (maxWidth.Some? && w == maxWidth.value)
    ensures minWidth.Some? && width <= minWidth.value ==> w == minWidth.value
    ensures (minWidth.None? || width > minWidth.value) && maxWidth.Some? && width >= maxWidth.value ==>
              w == maxWidth.value
    ensures (minWidth.None? || width > minWidth.value) && (maxWidth.None? || width < maxWidth.value) ==>
              w == width
    ensures minWidth.Some? && maxWidth.Some? && minWidth.value <= maxWidth.value ==>
              minWidth.value <= w <= maxWidth.value
  {
    if minWidth.Some? && width <= minWidth.value then minWidth.value
    else if maxWidth.Some? && width >= maxWidth.value then maxWidth.value
    else width
  }

  /** Clamping a clamped width changes nothing when the bounds are ordered. */
  lemma ClampIdempotent(width: int, minWidth: Option<int>, maxWidth: Option<int>)
    requires minWidth.Some? && maxWidth.Some? ==> minWidth.value <= maxWidth.value
    ensures ClampWidth(ClampWidth(width, minWidth, maxWidth), minWidth, maxWidth)
            == ClampWidth(width, minWidth, maxWidth)
  {
  }

  /** A column definition. The header only reads `id` (`$$id`), `prop`, the
      widths and bounds; it writes the transient drag flags, on the very
      objects the table and the header cells hold. */
  class Column {
    const id: int
    const prop: string
    const width: int
    const minWidth: Option<int>
    const maxWidth: Option<int>
    var dragging: bool
    var isTarget: bool
    var targetMarkerContext: Option<Marker>

    constructor (id: int, prop: string, width: int, minWidth: Option<int>, maxWidth: Option<int>)
      ensures this.id == id && this.prop == prop && this.width == width
      ensures this.minWidth == minWidth && this.maxWidth == maxWidth
      ensures !dragging && !isTarget && targetMarkerContext.None?
    {
      this.id, this.prop, this.width := id, prop, width;
      this.minWidth, this.maxWidth := minWidth, maxWidth;
      dragging, isTarget, targetMarkerContext := false, false, None;
    }
  }

  /** The `sort` output: the new list and the request that produced it. */
  datatype SortEvent = SortEvent(sorts: seq<SortEntry>, column: Column,
                                 prevValue: Option<Dir>, newValue: Option<Dir>)

  /** The `reorder` output. */
  datatype ReorderEvent = ReorderEvent(column: Column, prevValue: int, newValue: int)

  /** The `resize` output: the committed (clamped) width beside the raw one. */
  datatype ResizeEvent = ResizeEvent(column: Column, prevValue: int, newValue: int,
                                     notLimitedNewValue: int)

  /** `onColumnResized`: the resize intent for a width reported by the
      resize handle. */
  function ResizeIntent(width: int, column: Column): (e: ResizeEvent)
    ensures e.column == column && e.prevValue == column.width
    ensures e.notLimitedNewValue == width
    ensures e.newValue == ClampWidth(width, column.minWidth, column.maxWidth)
    ensures column.minWidth.Some? && column.maxWidth.Some? &&
            column.minWidth.value <= column.maxWidth.value ==>
              column.minWidth.value <= e.newValue <= column.maxWidth.value
  {
    ResizeEvent(column, column.width, ClampWidth(width, column.minWidth, column.maxWidth), width)
  }

  /** Where `Array.prototype.find` stops: the first column with the id. */
  function FirstWithId(cols: seq<Column>, id: int): (r: Option<nat>)
    ensures r.Some? ==> r.value < |cols| && cols[r.value].id == id &&
                        forall j :: 0 <= j < r.value ==> cols[j].id != id
    ensures r.None? ==> forall j :: 0 <= j < |cols| ==> cols[j].id != id
  {
    if cols == [] then None
    else if cols[0].id == id then Some(0)
    else
      match FirstWithId(cols[1..], id)
      case None => None
      case Some(k) => Some(k + 1)
  }

  /** The search `onLongPressEnd` runs over the table's columns. */
  method FindColumnById(cols: seq<Column>, id: int) returns (r: Option<nat>)
    ensures r == FirstWithId(cols, id)
  {
    var i := 0;
    while i < |cols|
      invariant 0 <= i <= |cols|
      invariant forall j :: 0 <= j < i ==> cols[j].id != id
    {
      if cols[i].id == id {
        return Some(i);
      }
      i := i + 1;
    }
    return None;
  }

  class HeaderComponent {
    var sortType: SortType
    /** The `sorts` input; `None` while the host has not given one. */
    var sorts: Option<seq<SortEntry>>
    /** `_columns`, the table's column list. */
    var columns: Option<seq<Column>>
    /** `_columnsByPin`, the columns split into the three pinned groups. */
    var columnsByPin: Option<seq<ColumnGroup<Column>>>
    /** `_columnsAmount`, the size of each pinned group. */
    var columnsAmount: PerGroup<nat>
    /** The pointer event of the last long press; an opaque token here. */
    var dragEventTarget: Option<int>

    ghost predicate Valid()
      reads this
    {
      columnsByPin.Some? ==> PinnedInOrder(columnsByPin.value)
    }

    constructor (sortType: SortType, sorts: Option<seq<SortEntry>>)
      ensures Valid()
      ensures this.sortType == sortType && this.sorts == sorts
      ensures columns.None? && columnsByPin.None?
      ensures columnsAmount == NoColumns && dragEventTarget.None?
    {
      this.sortType, this.sorts := sortType, sorts;
      columns, columnsByPin := None, None;
      columnsAmount, dragEventTarget := NoColumns, None;
    }

    /** The synchronous part of the `columns` setter; the pinned groups are
        computed by the host and passed in. */
    method SetColumns(cols: seq<Column>, groups: seq<ColumnGroup<Column>>)
      requires PinnedInOrder(groups)
      modifies this`columns, this`columnsByPin, this`columnsAmount
      ensures Valid()
      ensures columns == Some(cols) && columnsByPin == Some(groups)
      ensures columnsAmount ==
              PerGroup(|groups[0].columns|, |groups[1].columns|, |groups[2].columns|)
    {
      columns := Some(cols);
      columnsByPin := Some(groups);
      RecalculateColumnsAmount();
      AmountsOfPinned(groups);
    }

    /** `recalculateColumnsAmount`: reset the three counts, then let each
        group record its size under its pin. */
    method RecalculateColumnsAmount()
      modifies this`columnsAmount
      ensures columnsAmount == if columnsByPin.None? then NoColumns else AmountsOf(columnsByPin.value)
    {
      columnsAmount := NoColumns;
      if columnsByPin.None? {
        return;
      }
      var groups := columnsByPin.value;
      var i := 0;
      while i < |groups|
        invariant 0 <= i <= |groups|
        invariant columnsAmount == AmountsOf(groups[..i])
      {
        assert groups[..i + 1][..i] == groups[..i];
        columnsAmount := columnsAmount.With(groups[i].pin, |groups[i].columns|);
        i := i + 1;
      }
      assert groups[..i] == groups;
    }

    /** `getColumn`. `None` stands for the source's `undefined`, and also
        for the TypeError it raises when no groups are set yet; every caller
        then fails on the missing column. */
    function GetColumn(index: int): (r: Option<Column>)
      requires Valid()
      reads this
      ensures columnsByPin.None? ==> r.None?
      ensures columnsByPin.Some? ==>
                var g := columnsByPin.value;
                r.Some? <==> 0 <= index < |g[0].columns| + |g[1].columns| + |g[2].columns|
      ensures r.Some? ==>
                var g := columnsByPin.value;
                r.value == (g[0].columns + g[1].columns + g[2].columns)[index]
    {
      if columnsByPin.None? then None
      else
        var g := columnsByPin.value;
        ColumnAt(g[0].columns, g[1].columns, g[2].columns, index)
    }

    /** The column an optional index designates, if any. */
    function At(index: Option<int>): Option<Column>
      requires Valid()
      reads this
    {
      if index.Some? then GetColumn(index.value) else None
    }

    /** The objects a handler may touch through an optional index. */
    function Touched(index: Option<int>): set<Column>
      requires Valid()
      reads this
    {
      if At(index).Some? then {At(index).value} else {}
    }

    /** `onTargetChanged`: the previous target loses its flag and marker,
        the new one gets the flag, and a marker unless the drag is back over
        its own column. `ok` is false where the source throws on a missing
        column; what was written before the throw stays written. */
    method OnTargetChanged(prevIndex: Option<int>, newIndex: Option<int>, initialIndex: int)
      returns (ok: bool)
      requires Valid()
      modifies Touched(prevIndex)`isTarget, Touched(prevIndex)`targetMarkerContext
      modifies Touched(newIndex)`isTarget, Touched(newIndex)`targetMarkerContext
      ensures ok <==> (prevIndex.Some? ==> At(prevIndex).Some?) && (newIndex.Some? ==> At(newIndex).Some?)
      ensures At(prevIndex).Some? && (!ok || At(newIndex).None? || At(newIndex) != At(prevIndex)) ==>
                !At(prevIndex).value.isTarget && At(prevIndex).value.targetMarkerContext.None?
      ensures ok && At(newIndex).Some? ==>
                var c := At(newIndex).value;
                c.isTarget &&
                c.targetMarkerContext ==
                  if initialIndex != newIndex.value then TargetMarker(initialIndex, newIndex.value)
                  else if At(prevIndex) == At(newIndex) then None
                  else old(c.targetMarkerContext)
      ensures prevIndex.Some? && At(prevIndex).None? && At(newIndex).Some? ==>
                unchanged(At(newIndex).value)
    {
      if prevIndex.Some? {
        var oldColumn := GetColumn(prevIndex.value);
        if oldColumn.None? {
          return false;
        }
        oldColumn.value.isTarget := false;
        oldColumn.value.targetMarkerContext := None;
      }
      if newIndex.Some? {
        var newColumn := GetColumn(newIndex.value);
        if newColumn.None? {
          return false;
        }
        newColumn.value.isTarget := true;
        if initialIndex != newIndex.value {
          newColumn.value.targetMarkerContext :=
            Some(if initialIndex > newIndex.value then DragFromRight else DragFromLeft);
        }
      }
      return true;
    }

    /** `onColumnReordered`: clear the drop target's flags and emit the
        reorder intent; throws when `newIndex` designates no column. */
    method OnColumnReordered(prevIndex: int, newIndex: int, model: Column)
      returns (r: Outcome<ReorderEvent>)
      requires Valid()
      modifies Touched(Some(newIndex))`isTarget, Touched(Some(newIndex))`targetMarkerContext
      ensures r.Threw? <==> GetColumn(newIndex).None?
      ensures r.Returned? ==>
                r.value == ReorderEvent(model, prevIndex, newIndex) &&
                !GetColumn(newIndex).value.isTarget &&
                GetColumn(newIndex).value.targetMarkerContext.None?
    {
      var column := GetColumn(newIndex);
      if column.None? {
        return Threw;
      }
      column.value.isTarget := false;
      column.value.targetMarkerContext := None;
      r := Returned(ReorderEvent(model, prevIndex, newIndex));
    }

    /** `onLongPressStart`: arm the pressed column for dragging. */
    method OnLongPressStart(event: int, model: Column)
      modifies this`dragEventTarget, model`dragging
      ensures model.dragging && dragEventTarget == Some(event)
    {
      model.dragging := true;
      dragEventTarget := Some(event);
    }

    /** `onLongPressEnd`, up to the deferred reset (see `ReleaseDragging`). */
    method OnLongPressEnd(event: int)
      modifies this`dragEventTarget
      ensures dragEventTarget == Some(event)
    {
      dragEventTarget := Some(event);
    }

    /** The objects of the table's column list. */
    function ColumnSet(): set<Column>
      reads this
    {
      if columns.Some? then set c | c in columns.value else {}
    }

    /** The callback `onLongPressEnd` defers: find the pressed column in the
        (possibly replaced) column list by id and clear its `dragging` flag.
        Until it runs, `OnSort` still sees the flag and suppresses the sort.
        `ok` is false where the source throws on an unset column list. */
    method ReleaseDragging(modelId: int) returns (ok: bool)
      modifies ColumnSet()`dragging
      ensures ok <==> columns.Some?
      ensures ok ==>
                var k := FirstWithId(columns.value, modelId);
                forall c :: c in ColumnSet() ==>
                  c.dragging == if k.Some? && c == columns.value[k.value] then false else old(c.dragging)
    {
      if columns.None? {
        return false;
      }
      var k := FindColumnById(columns.value, modelId);
      if k.Some? {
        columns.value[k.value].dragging := false;
      }
      return true;
    }

    /** `calcNewSorts`: normalise an unset sort list to `[]`, then compute
        the next list on a copy, leaving the stored list as it was. */
    method CalcNewSorts(column: Column, prevValue: Option<Dir>, newValue: Option<Dir>)
      returns (r: Outcome<seq<SortEntry>>)
      modifies this`sorts
      ensures sorts == Some(if old(sorts).Some? then old(sorts).value else [])
      ensures r == NextSorts(sorts.value, column.prop, prevValue, newValue, sortType)
    {
      if sorts.None? {
        sorts := Some([]);
      }
      var copy := sorts.value;
      var idx := FindSortIndex(copy, column.prop);
      if newValue.None? {
        r := Returned(RemoveAt(copy, idx));
      } else if prevValue.Some? {
        if idx < |copy| {
          r := Returned(copy[idx := copy[idx].(dir := newValue.value)]);
        } else {
          r := Threw;
        }
      } else {
        var entry := SortEntry(column.prop, newValue.value);
        if sortType == Single {
          copy := [];
          assert copy + [entry] == [entry];
        }
        copy := copy + [entry];
        r := Returned(copy);
      }
    }

    /** `onSort`: no sort while the column is being dragged; otherwise emit
        the next sort list together with the request. */
    method OnSort(column: Column, prevValue: Option<Dir>, newValue: Option<Dir>)
      returns (r: Outcome<Option<SortEvent>>)
      modifies this`sorts
      ensures column.dragging ==> r == Returned(None) && sorts == old(sorts)
      ensures !column.dragging ==>
                sorts == Some(if old(sorts).Some? then old(sorts).value else []) &&
                match NextSorts(sorts.value, column.prop, prevValue, newValue, sortType)
                case Threw => r.Threw?
                case Returned(s) => r == Returned(Some(SortEvent(s, column, prevValue, newValue)))
    {
      if column.dragging {
        return Returned(None);
      }
      var next := CalcNewSorts(column, prevValue, newValue);
      if next.Threw? {
        return Threw;
      }
      r := Returned(Some(SortEvent(next.value, column, prevValue, newValue)));
    }
  }
}
