/** The header's per-group geometry: how many columns each pinned group
    holds, which group absorbs the scrollbar gutter, how a flat column index
    maps onto the groups, and the width and horizontal translation of each
    group. All of it is pure arithmetic over the three groups. */
module Layout {
  import opened Base

  /** One entry of `_columnsByPin`: a pinned group and its columns in order. */
  datatype ColumnGroup<C> = ColumnGroup(pin: Pin, columns: seq<C>)

  /** The shape `_columnsByPin` always has: left, center and right, in that order. */
  predicate PinnedInOrder<C>(groups: seq<ColumnGroup<C>>) {
    |groups| == 3 && groups[0].pin == Left && groups[1].pin == Center && groups[2].pin == Right
  }

  /** The three counts as `recalculateColumnsAmount` resets them. */
  const NoColumns: PerGroup<nat> := PerGroup(0, 0, 0)

  /** The counts `recalculateColumnsAmount` leaves after walking `groups`
      from the first: each group writes its size under its own pin. */
  function AmountsOf<C>(groups: seq<ColumnGroup<C>>): (a: PerGroup<nat>)
    ensures groups != [] ==> a.Get(groups[|groups| - 1].pin) == |groups[|groups| - 1].columns|
    ensures forall p :: (forall k :: 0 <= k < |groups| ==> groups[k].pin != p) ==> a.Get(p) == 0
  {
    if groups == [] then NoColumns
    else
      var last := groups[|groups| - 1];
      AmountsOf(groups[..|groups| - 1]).With(last.pin, |last.columns|)
  }

  /** The count recorded for a pin is the size of the LAST group with that
      pin, or 0 when no group has it. */
  lemma {:induction false} AmountsOfLastGroup<C>(groups: seq<ColumnGroup<C>>, p: Pin)
    ensures forall k :: 0 <= k < |groups| && groups[k].pin == p &&
                        (forall j :: k < j < |groups| ==> groups[j].pin != p) ==>
                        AmountsOf(groups).Get(p) == |groups[k].columns|
    ensures (forall k :: 0 <= k < |groups| ==> groups[k].pin != p) ==> AmountsOf(groups).Get(p) == 0
    decreases |groups|
  {
    if groups != [] {
      var front := groups[..|groups| - 1];
      AmountsOfLastGroup(front, p);
      forall k | 0 <= k < |groups| && groups[k].pin == p &&
                 (forall j :: k < j < |groups| ==> groups[j].pin != p)
        ensures AmountsOf(groups).Get(p) == |groups[k].columns|
      {
        if k < |groups| - 1 {
          assert front[k] == groups[k];
          assert forall j :: k < j < |front| ==> front[j] == groups[j];
        }
      }
      if forall k :: 0 <= k < |groups| ==> groups[k].pin != p {
        assert forall k :: 0 <= k < |front| ==> front[k] == groups[k];
      }
    }
  }

  /** On the three pinned groups the counts are exactly their sizes. */
  lemma AmountsOfPinned<C>(groups: seq<ColumnGroup<C>>)
    requires PinnedInOrder(groups)
    ensures AmountsOf(groups) ==
            PerGroup(|groups[0].columns|, |groups[1].columns|, |groups[2].columns|)
  {
  }

  /** `getColumn`: the flat index walks the left group, then the center,
      then the right one. An index outside them yields `undefined`. */
  function ColumnAt<C>(left: seq<C>, center: seq<C>, right: seq<C>, index: int): (r: Option<C>)
    ensures 0 <= index < |left| + |center| + |right| ==> r == Some((left + center + right)[index])
    ensures !(0 <= index < |left| + |center| + |right|) ==> r == None
  {
    if index < |left| then
      if 0 <= index then Some(left[index]) else None
    else if index < |left| + |center| then
      Some(center[index - |left|])
    else if index - |left| - |center| < |right| then
      Some(right[index - |left| - |center|])
    else
      None
  }

  /** The group that sits at the scrollable edge: the last non-empty one
      scanning left to right, or the left group when all are empty. */
  function AbsorbingGroup(amounts: PerGroup<nat>): (p: Pin)
    ensures p == Left || amounts.Get(p) != 0
    ensures forall q :: Order(p) < Order(q) ==> amounts.Get(q) == 0
  {
    if amounts.right != 0 then Right
    else if amounts.center != 0 then Center
    else Left
  }

  /** `shouldAddExtraWidth`: with a non-zero scrollbar width exactly the
      absorbing group takes the gutter; with zero none does. */
  function ShouldAddExtraWidth(group: Pin, amounts: PerGroup<nat>, scrollWidth: int): (add: bool)
    ensures add <==> scrollWidth != 0 && group == AbsorbingGroup(amounts)
  {
    if scrollWidth == 0 then false
    else
      match group
      case Left => amounts.center == 0 && amounts.right == 0
      case Center => amounts.right == 0 && amounts.center != 0
      case Right => amounts.right != 0
  }

  /** `calcExtraLastCellWidth`: the padding given to a group's last cell. */
  function ExtraLastCellWidth(group: Pin, amounts: PerGroup<nat>, scrollWidth: int): (w: int)
    ensures w == 0 || w == scrollWidth
    ensures w != 0 ==> group == AbsorbingGroup(amounts)
  {
    if ShouldAddExtraWidth(group, amounts, scrollWidth) then scrollWidth else 0
  }

  /** Over the three groups the gutter is added exactly once. */
  lemma GutterAddedOnce(amounts: PerGroup<nat>, scrollWidth: int)
    ensures ExtraLastCellWidth(Left, amounts, scrollWidth)
          + ExtraLastCellWidth(Center, amounts, scrollWidth)
          + ExtraLastCellWidth(Right, amounts, scrollWidth) == scrollWidth
  {
  }

  /** `_columnGroupWidths`: summed column widths per group and their total. */
  datatype GroupWidths = GroupWidths(group: PerGroup<int>, total: int)

  /** The numbers of a group's style: its width and its horizontal
      translation (`None` for the left group, which is never translated). */
  datatype GroupStyle = GroupStyle(width: int, translateX: Option<int>)

  /** `calcStylesByGroup`; `offsetX` is the horizontal scroll offset, already
      defaulted to 0 when unset. */
  function StyleOf(group: Pin, widths: GroupWidths, offsetX: int, innerWidth: int,
                   amounts: PerGroup<nat>, scrollWidth: int): (s: GroupStyle)
    ensures s.translateX.None? <==> group == Left
    ensures group == Center ==> s.translateX == Some(-offsetX)
  {
    var extra := ExtraLastCellWidth(group, amounts, scrollWidth);
    var width := widths.group.Get(group) + extra;
    match group
    case Left => GroupStyle(width, None)
    case Center => GroupStyle(width, Some(offsetX * -1))
    case Right => GroupStyle(width, Some((widths.total - innerWidth + extra) * -1))
  }

  /** With the total equal to the sum of the groups, the styled widths add up
      to the total plus the gutter, which is absorbed once. */
  lemma StyledWidthsSum(widths: GroupWidths, offsetX: int, innerWidth: int,
                        amounts: PerGroup<nat>, scrollWidth: int)
    requires widths.total == widths.group.left + widths.group.center + widths.group.right
    ensures StyleOf(Left, widths, offsetX, innerWidth, amounts, scrollWidth).width
          + StyleOf(Center, widths, offsetX, innerWidth, amounts, scrollWidth).width
          + StyleOf(Right, widths, offsetX, innerWidth, amounts, scrollWidth).width
          == widths.total + scrollWidth
  {
  }

  /** The right group's translation pins it flush with the viewport's right
      edge: laid out after the left and center groups and shifted, it ends at
      `innerWidth`. This holds when the right group holds the gutter or there
      is none. */
  lemma RightGroupFlush(widths: GroupWidths, offsetX: int, innerWidth: int,
                        amounts: PerGroup<nat>, scrollWidth: int)
    requires widths.total == widths.group.left + widths.group.center + widths.group.right
    requires amounts.right != 0 || scrollWidth == 0
    ensures var r := StyleOf(Right, widths, offsetX, innerWidth, amounts, scrollWidth);
            StyleOf(Left, widths, offsetX, innerWidth, amounts, scrollWidth).width
            + StyleOf(Center, widths, offsetX, innerWidth, amounts, scrollWidth).width
            + r.translateX.value + r.width == innerWidth
  {
  }
}
