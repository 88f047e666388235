/** The sort-list recomputation behind the header's `calcNewSorts`:
    given the current sort descriptors and one column's previous and
    requested direction, the next list of descriptors. */
module Sorting {
  import opened Base

  datatype Dir = Asc | Desc

  /** `SortType.single` keeps at most one descriptor, `SortType.multi` a priority list. */
  datatype SortType = Single | Multi

  /** One sort descriptor `{prop, dir}`; list order is sort priority. */
  datatype SortEntry = SortEntry(prop: string, dir: Dir)

  predicate HasProp(sorts: seq<SortEntry>, prop: string) {
    exists k :: 0 <= k < |sorts| && sorts[k].prop == prop
  }

  /** No two descriptors sort on the same property. */
  predicate UniqueProps(sorts: seq<SortEntry>) {
    forall i, j :: 0 <= i < j < |sorts| ==> sorts[i].prop != sorts[j].prop
  }

  /** The index `calcNewSorts` settles on: the last descriptor whose `prop`
      is the column's, or 0 when there is none. */
  function LastSortIndex(sorts: seq<SortEntry>, prop: string): (idx: nat)
    ensures HasProp(sorts, prop) ==>
              idx < |sorts| && sorts[idx].prop == prop &&
              forall k :: idx < k < |sorts| ==> sorts[k].prop != prop
    ensures !HasProp(sorts, prop) ==> idx == 0
  {
    if |sorts| == 0 then 0
    else if sorts[|sorts| - 1].prop == prop then |sorts| - 1
    else
      var front := sorts[..|sorts| - 1];
      assert HasProp(sorts, prop) ==> HasProp(front, prop) by {
        if HasProp(sorts, prop) {
          var k :| 0 <= k < |sorts| && sorts[k].prop == prop;
          assert front[k].prop == prop;
        }
      }
      LastSortIndex(front, prop)
  }

  /** The scan `calcNewSorts` does while copying the list: every matching
      entry overwrites `idx`, so the last match wins. */
  method FindSortIndex(sorts: seq<SortEntry>, prop: string) returns (idx: nat)
    ensures idx == LastSortIndex(sorts, prop)
  {
    idx := 0;
    var i := 0;
    while i < |sorts|
      invariant 0 <= i <= |sorts|
      invariant idx == LastSortIndex(sorts[..i], prop)
    {
      assert sorts[..i + 1][..i] == sorts[..i];
      if sorts[i].prop == prop {
        idx := i;
      }
      i := i + 1;
    }
    assert sorts[..i] == sorts;
  }

  /** `Array.prototype.splice(i, 1)`: drops the element at `i`, if any. */
  function RemoveAt(s: seq<SortEntry>, i: nat): (r: seq<SortEntry>)
    ensures |r| == if i < |s| then |s| - 1 else |s|
    ensures forall k :: 0 <= k < |r| ==> r[k] == if k < i then s[k] else s[k + 1]
  {
    if i < |s| then s[..i] + s[i + 1..] else s
  }

  /** The next sort list. `prevValue` is truthy exactly when it is `Some`;
      `newValue` is `None` when the source's is `undefined`. Writing the new
      direction into entry 0 of an empty list is the source's TypeError. */
  function NextSorts(sorts: seq<SortEntry>, prop: string, prevValue: Option<Dir>,
                     newValue: Option<Dir>, sortType: SortType): (r: Outcome<seq<SortEntry>>)
    // unset: the entry at idx is removed; an empty list stays empty
    ensures newValue.None? ==>
              var idx := LastSortIndex(sorts, prop);
              r.Returned? &&
              |r.value| == (if sorts == [] then 0 else |sorts| - 1) &&
              (forall k :: 0 <= k < idx && k < |r.value| ==> r.value[k] == sorts[k]) &&
              (forall k :: idx <= k < |r.value| ==> r.value[k] == sorts[k + 1])
    // re-toggle in place: only the direction of entry idx changes
    ensures newValue.Some? && prevValue.Some? ==>
              (r.Threw? <==> sorts == []) &&
              (r.Returned? ==>
                 var idx := LastSortIndex(sorts, prop);
                 |r.value| == |sorts| &&
                 r.value[idx] == SortEntry(sorts[idx].prop, newValue.value) &&
                 forall k :: 0 <= k < |sorts| && k != idx ==> r.value[k] == sorts[k])
    // first direction for the column: sole entry, or appended last
    ensures newValue.Some? && prevValue.None? && sortType == Single ==>
              r == Returned([SortEntry(prop, newValue.value)])
    ensures newValue.Some? && prevValue.None? && sortType == Multi ==>
              r.Returned? && |r.value| == |sorts| + 1 &&
              r.value[..|sorts|] == sorts && r.value[|sorts|] == SortEntry(prop, newValue.value)
  {
    var idx := LastSortIndex(sorts, prop);
    if newValue.None? then
      Returned(RemoveAt(sorts, idx))
    else if prevValue.Some? then
      if idx < |sorts| then Returned(sorts[idx := sorts[idx].(dir := newValue.value)])
      else Threw
    else
      // single mode empties the list before pushing
      if sortType == Single then Returned([SortEntry(prop, newValue.value)])
      else Returned(sorts + [SortEntry(prop, newValue.value)])
  }

  /** The direction the list gives `prop`: that of its last descriptor for
      `prop`, the one `calcNewSorts` acts on. */
  function DirOf(sorts: seq<SortEntry>, prop: string): Option<Dir> {
    if HasProp(sorts, prop) then Some(sorts[LastSortIndex(sorts, prop)].dir) else None
  }

  lemma DirOfAt(sorts: seq<SortEntry>, j: nat)
    requires UniqueProps(sorts) && j < |sorts|
    ensures DirOf(sorts, sorts[j].prop) == Some(sorts[j].dir)
  {
  }

  lemma DirOfAbsent(sorts: seq<SortEntry>, q: string)
    requires forall k :: 0 <= k < |sorts| ==> sorts[k].prop != q
    ensures DirOf(sorts, q) == None
  {
  }

  /** Removing entry `idx` of a list with unique properties drops that
      entry's property and keeps every other property's direction. */
  lemma RemoveKeepsOthers(sorts: seq<SortEntry>, idx: nat)
    requires UniqueProps(sorts) && idx < |sorts|
    ensures var r := RemoveAt(sorts, idx);
            UniqueProps(r) &&
            DirOf(r, sorts[idx].prop) == None &&
            forall q :: q != sorts[idx].prop ==> DirOf(r, q) == DirOf(sorts, q)
  {
    var r := RemoveAt(sorts, idx);
    assert UniqueProps(r) by {
      forall i, j | 0 <= i < j < |r| ensures r[i].prop != r[j].prop {
        var i' := if i < idx then i else i + 1;
        var j' := if j < idx then j else j + 1;
        assert r[i] == sorts[i'] && r[j] == sorts[j'] && i' < j';
      }
    }
    DirOfAbsent(r, sorts[idx].prop);
    forall q | q != sorts[idx].prop ensures DirOf(r, q) == DirOf(sorts, q) {
      if HasProp(sorts, q) {
        var j := LastSortIndex(sorts, q);
        var k := if j < idx then j else j - 1;
        assert r[k] == sorts[j];
        DirOfAt(r, k);
      } else {
        DirOfAbsent(r, q);
      }
    }
  }

  /** Changing the direction of entry `idx` keeps the properties, so it gives
      that property the new direction and leaves the others. */
  lemma RedirectKeepsOthers(sorts: seq<SortEntry>, idx: nat, d: Dir)
    requires UniqueProps(sorts) && idx < |sorts|
    ensures var r := sorts[idx := sorts[idx].(dir := d)];
            UniqueProps(r) &&
            DirOf(r, sorts[idx].prop) == Some(d) &&
            forall q :: q != sorts[idx].prop ==> DirOf(r, q) == DirOf(sorts, q)
  {
    var r := sorts[idx := sorts[idx].(dir := d)];
    assert forall k :: 0 <= k < |r| ==> r[k].prop == sorts[k].prop;
    DirOfAt(r, idx);
    forall q | q != sorts[idx].prop ensures DirOf(r, q) == DirOf(sorts, q) {
      if HasProp(sorts, q) {
        DirOfAt(r, LastSortIndex(sorts, q));
      } else {
        DirOfAbsent(r, q);
      }
    }
  }

  /** Appending a descriptor for a property the list lacks gives it that
      direction and leaves the others. */
  lemma AppendKeepsOthers(sorts: seq<SortEntry>, e: SortEntry)
    requires UniqueProps(sorts) && !HasProp(sorts, e.prop)
    ensures var r := sorts + [e];
            UniqueProps(r) &&
            DirOf(r, e.prop) == Some(e.dir) &&
            forall q :: q != e.prop ==> DirOf(r, q) == DirOf(sorts, q)
  {
    var r := sorts + [e];
    assert UniqueProps(r) by {
      forall i, j | 0 <= i < j < |r| ensures r[i].prop != r[j].prop {
        assert r[i] == sorts[i];
      }
    }
    DirOfAt(r, |sorts|);
    forall q | q != e.prop ensures DirOf(r, q) == DirOf(sorts, q) {
      if HasProp(sorts, q) {
        var j := LastSortIndex(sorts, q);
        assert r[j] == sorts[j];
        DirOfAt(r, j);
      } else {
        DirOfAbsent(r, q);
      }
    }
  }

  /** Read as a map from property to direction, one multi-sort step sets the
      column's direction to the requested one and leaves every other column's
      direction alone, and properties stay unique. This holds when the caller's
      `prevValue` is the column's current direction and the step is a real
      cycle step (it does not ask to unset a column that has no direction). */
  lemma {:induction false} MultiSortStep(sorts: seq<SortEntry>, prop: string,
                                         prevValue: Option<Dir>, newValue: Option<Dir>)
    requires UniqueProps(sorts)
    requires prevValue == DirOf(sorts, prop)
    requires prevValue.Some? || newValue.Some?
    ensures NextSorts(sorts, prop, prevValue, newValue, Multi).Returned?
    ensures var r := NextSorts(sorts, prop, prevValue, newValue, Multi).value;
            UniqueProps(r) &&
            DirOf(r, prop) == newValue &&
            forall q :: q != prop ==> DirOf(r, q) == DirOf(sorts, q)
  {
    var idx := LastSortIndex(sorts, prop);
    if newValue.None? {
      RemoveKeepsOthers(sorts, idx);
    } else if prevValue.Some? {
      RedirectKeepsOthers(sorts, idx, newValue.value);
    } else {
      AppendKeepsOthers(sorts, SortEntry(prop, newValue.value));
    }
  }

  /** Single-sort mode keeps at most one descriptor, and a cycle step on a
      column leaves exactly that column's requested direction, or nothing. */
  lemma {:induction false} SingleSortStep(sorts: seq<SortEntry>, prop: string,
                                          prevValue: Option<Dir>, newValue: Option<Dir>)
    requires |sorts| <= 1
    requires prevValue == DirOf(sorts, prop)
    requires prevValue.Some? || newValue.Some?
    ensures NextSorts(sorts, prop, prevValue, newValue, Single) ==
            Returned(if newValue.Some? then [SortEntry(prop, newValue.value)] else [])
  {
    if prevValue.Some? {
      assert HasProp(sorts, prop);
      assert LastSortIndex(sorts, prop) == 0 && sorts[0].prop == prop;
      if newValue.Some? {
        assert sorts[0 := sorts[0].(dir := newValue.value)] == [SortEntry(prop, newValue.value)];
      }
    }
  }

  /** As written, asking to unset a column that has no descriptor removes
      entry 0, the descriptor of some other column. */
  lemma UnsetAbsentDropsFirst(sorts: seq<SortEntry>, prop: string,
                              prevValue: Option<Dir>, sortType: SortType)
    requires sorts != [] && !HasProp(sorts, prop)
    ensures NextSorts(sorts, prop, prevValue, None, sortType) == Returned(sorts[1..])
  {
    assert sorts[..0] + sorts[1..] == sorts[1..];
  }

  /** The single-mode cycle: none, then ascending, descending, none again;
      and a request on another column replaces the sole descriptor. */
  lemma SingleSortCycle()
    ensures NextSorts([], "a", None, Some(Asc), Single) == Returned([SortEntry("a", Asc)])
    ensures NextSorts([SortEntry("a", Asc)], "a", Some(Asc), Some(Desc), Single)
            == Returned([SortEntry("a", Desc)])
    ensures NextSorts([SortEntry("a", Desc)], "a", Some(Desc), None, Single) == Returned([])
    ensures NextSorts([SortEntry("a", Asc)], "b", None, Some(Asc), Single)
            == Returned([SortEntry("b", Asc)])
  {
    DirOfAt([SortEntry("a", Asc)], 0);
    DirOfAt([SortEntry("a", Desc)], 0);
    SingleSortStep([SortEntry("a", Asc)], "a", Some(Asc), Some(Desc));
    SingleSortStep([SortEntry("a", Desc)], "a", Some(Desc), None);
  }
}
