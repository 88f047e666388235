/** The column resize gesture (`ResizeableDirective`): a mouse-down on the
    resize handle starts listening to the document, every mouse-move proposes
    a width measured from the gesture's start, and the mouse-up stops
    listening and reports the element's width once. DOM reads (the target's
    class, `screenX`, `clientWidth`) arrive as parameters. */
module Resizeable {
  import opened Base

  /** `!x` for a numeric input: unset or zero. */
  predicate Falsy(x: Option<int>) {
    x.None? || x.value == 0
  }

  /** The acceptance test inside `move`: over the minimum and under the
      maximum, where a falsy bound imposes nothing. */
  function Accepts(newWidth: int, minWidth: Option<int>, maxWidth: Option<int>): (ok: bool)
    ensures Falsy(minWidth) && Falsy(maxWidth) ==> ok
    ensures ok && !Falsy(minWidth) ==> newWidth >= minWidth.value
    ensures ok && !Falsy(maxWidth) ==> newWidth <= maxWidth.value
    ensures !ok ==> (!Falsy(minWidth) && newWidth < minWidth.value) ||
                    (!Falsy(maxWidth) && newWidth > maxWidth.value)
  {
    var overMinWidth := Falsy(minWidth) || newWidth >= minWidth.value;
    var underMaxWidth := Falsy(maxWidth) || newWidth <= maxWidth.value;
    overMinWidth && underMaxWidth
  }

  /** The width `move` returns: the start width plus the pointer's travel
      when that is acceptable, else the start width (rejected, not clamped). */
  function MoveWidth(initialWidth: int, screenX: int, mouseDownScreenX: int,
                     minWidth: Option<int>, maxWidth: Option<int>): (w: int)
    ensures var proposed := initialWidth + (screenX - mouseDownScreenX);
            w == if Accepts(proposed, minWidth, maxWidth) then proposed else initialWidth
    ensures Falsy(minWidth) && Falsy(maxWidth) ==> w == initialWidth + (screenX - mouseDownScreenX)
    // a gesture that starts within the bounds never reports a width outside them
    ensures !Falsy(minWidth) && initialWidth >= minWidth.value ==> w >= minWidth.value
    ensures !Falsy(maxWidth) && initialWidth <= maxWidth.value ==> w <= maxWidth.value
  {
    var movementX := screenX - mouseDownScreenX;
    var newWidth := initialWidth + movementX;
    if Accepts(newWidth, minWidth, maxWidth) then newWidth else initialWidth
  }

  /** A gesture starting at width 100 with bounds 50..200: a travel of +30
      gives 130; a travel of +150 proposes 250, which is rejected, so the
      width stays 100. */
  lemma MoveWidthExample()
    ensures MoveWidth(100, 130, 100, Some(50), Some(200)) == 130
    ensures MoveWidth(100, 250, 100, Some(50), Some(200)) == 100
  {
  }

  /** Width, minimum and maximum as the element's inline style holds them;
      `None` is the empty string. */
  datatype ColumnWidths = ColumnWidths(width: Option<int>, minWidth: Option<int>, maxWidth: Option<int>)

  class ResizeableDirective {
    var minWidth: Option<int>
    var maxWidth: Option<int>
    var resizing: bool
    /** Whether the document-level mouseup/mousemove subscription is live. */
    var subscription: bool
    /** The host element's inline style. */
    var style: ColumnWidths
    var initialWidths: ColumnWidths
    /** What the live mousemove listener captured at mouse-down. */
    var gestureInitialWidth: int
    var gestureStartX: int

    /** A live subscription only exists during a gesture. */
    ghost predicate Valid()
      reads this
    {
      subscription ==> resizing
    }

    constructor (minWidth: Option<int>, maxWidth: Option<int>, style: ColumnWidths)
      ensures Valid()
      ensures this.minWidth == minWidth && this.maxWidth == maxWidth && this.style == style
      ensures !resizing && !subscription
      ensures initialWidths == ColumnWidths(None, None, None)
    {
      this.minWidth, this.maxWidth, this.style := minWidth, maxWidth, style;
      resizing, subscription := false, false;
      initialWidths := ColumnWidths(None, None, None);
      gestureInitialWidth, gestureStartX := 0, 0;
    }

    /** `onMousedown`: snapshot the inline style; only a press on the resize
        handle starts a gesture. */
    method OnMousedown(isHandle: bool, clientWidth: int, screenX: int)
      requires Valid()
      modifies this`initialWidths, this`resizing, this`subscription
      modifies this`gestureInitialWidth, this`gestureStartX
      ensures Valid()
      ensures initialWidths == style
      ensures isHandle ==> resizing && subscription &&
                           gestureInitialWidth == clientWidth && gestureStartX == screenX
      ensures !isHandle ==> resizing == old(resizing) && subscription == old(subscription) &&
                            gestureInitialWidth == old(gestureInitialWidth) &&
                            gestureStartX == old(gestureStartX)
    {
      var initialWidth := clientWidth;
      var mouseDownScreenX := screenX;
      initialWidths := ColumnWidths(style.width, style.minWidth, style.maxWidth);
      if isHandle {
        resizing := true;
        subscription := true;
        gestureInitialWidth, gestureStartX := initialWidth, mouseDownScreenX;
      }
    }

    /** `move`: write the proposed width to the element only when it is
        accepted. */
    method Move(screenX: int, initialWidth: int, mouseDownScreenX: int) returns (next: int)
      modifies this`style
      ensures next == MoveWidth(initialWidth, screenX, mouseDownScreenX, minWidth, maxWidth)
      ensures style == if Accepts(initialWidth + (screenX - mouseDownScreenX), minWidth, maxWidth)
                       then old(style).(width := Some(next))
                       else old(style)
    {
      var movementX := screenX - mouseDownScreenX;
      var newWidth := initialWidth + movementX;
      if Accepts(newWidth, minWidth, maxWidth) {
        style := style.(width := Some(newWidth));
        return newWidth;
      }
      return initialWidth;
    }

    /** A document mouse-move: handled by the gesture's listener while the
        subscription is live, ignored otherwise. */
    method OnMouseMove(screenX: int) returns (next: Option<int>)
      modifies this`style
      ensures !subscription ==> next.None? && style == old(style)
      ensures subscription ==>
                next == Some(MoveWidth(gestureInitialWidth, screenX, gestureStartX, minWidth, maxWidth))
      ensures subscription ==>
                style == if Accepts(gestureInitialWidth + (screenX - gestureStartX), minWidth, maxWidth)
                         then old(style).(width := next)
                         else old(style)
    {
      if !subscription {
        return None;
      }
      var w := Move(screenX, gestureInitialWidth, gestureStartX);
      next := Some(w);
    }

    /** `onMouseup`: the gesture ends; the element's width is emitted once,
        and only if a subscription was live. */
    method OnMouseup(clientWidth: int) returns (emitted: Option<int>)
      modifies this`resizing, this`subscription
      ensures Valid() && !resizing && !subscription
      ensures emitted == if old(subscription) then Some(clientWidth) else None
    {
      resizing := false;
      emitted := None;
      if subscription {
        DestroySubscription();
        emitted := Some(clientWidth);
      }
    }

    /** `_destroySubscription`: stop listening to the document. */
    method DestroySubscription()
      modifies this`subscription
      ensures !subscription
    {
      if subscription {
        subscription := false;
      }
    }

    /** `ngOnDestroy`: release a live gesture's listeners without emitting;
        `resizing` keeps its value. */
    method OnDestroy()
      modifies this`subscription
      ensures Valid() && !subscription && resizing == old(resizing)
    {
      DestroySubscription();
    }
  }
}
