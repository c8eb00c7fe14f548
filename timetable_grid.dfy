/**
 * The layout arithmetic of the weekly timetable grid: the hour window, the
 * list of hour rows, where each class block sits, which slots a day column
 * shows, and the add-mode cell predicates.
 */
module TimetableGrid {
  import opened Wrappers
  import opened Timetable
  import Seqs

  const DefaultStartHour: int := 9
  const DefaultEndHour: int := 16
  /** Height of one hour row, in layout units. */
  const RowHeight: int := 46

  function Min(a: int, b: int): int { if a <= b then a else b }
  function Max(a: int, b: int): int { if a >= b then a else b }

  /** `Math.min(9, ...slots.map(s => s.startHour))` */
  function MinHour(slots: seq<TimetableSlot>): (r: int)
    ensures r <= DefaultStartHour
    ensures forall i :: 0 <= i < |slots| ==> r <= slots[i].startHour
    ensures r == DefaultStartHour || exists i :: 0 <= i < |slots| && r == slots[i].startHour
  {
    if slots == [] then DefaultStartHour
    else
      var rest := MinHour(slots[1..]);
      assert forall i :: 1 <= i < |slots| ==> slots[i] == slots[1..][i - 1];
      Min(slots[0].startHour, rest)
  }

  /** `Math.max(16, ...slots.map(s => s.endHour))` */
  function MaxHour(slots: seq<TimetableSlot>): (r: int)
    ensures r >= DefaultEndHour
    ensures forall i :: 0 <= i < |slots| ==> r >= slots[i].endHour
    ensures r == DefaultEndHour || exists i :: 0 <= i < |slots| && r == slots[i].endHour
  {
    if slots == [] then DefaultEndHour
    else
      var rest := MaxHour(slots[1..]);
      assert forall i :: 1 <= i < |slots| ==> slots[i] == slots[1..][i - 1];
      Max(slots[0].endHour, rest)
  }

  /** With no slots the window is exactly the default one. */
  lemma EmptyWindow()
    ensures MinHour([]) == DefaultStartHour && MaxHour([]) == DefaultEndHour
  {
  }

  /** `Array.from({ length: hi - lo + 1 }, (_, k) => lo + k)`; a negative length gives no rows. */
  function HourRange(lo: int, hi: int): (r: seq<int>)
    ensures |r| == if hi - lo + 1 <= 0 then 0 else hi - lo + 1
    ensures forall k :: 0 <= k < |r| ==> r[k] == lo + k
    decreases hi - lo
  {
    if hi < lo then [] else HourRange(lo, hi - 1) + [hi]
  }

  /** The hour rows of the grid for these slots. */
  function Hours(slots: seq<TimetableSlot>): seq<int> {
    HourRange(MinHour(slots), MaxHour(slots))
  }

  /**
   * The rows run from the first to the last hour of the window, one per hour,
   * ascending by one; only the last row is the last row.
   */
  lemma HoursShape(slots: seq<TimetableSlot>)
    ensures var h := Hours(slots);
      |h| == MaxHour(slots) - MinHour(slots) + 1
      && h[0] == MinHour(slots) && h[|h| - 1] == MaxHour(slots)
      && (forall k :: 0 < k < |h| ==> h[k] == h[k - 1] + 1)
      && (forall k :: 0 <= k < |h| ==> (h[k] == MaxHour(slots) <==> k == |h| - 1))
  {
  }

  /** `top` of a slot's block. */
  function BlockTop(slot: TimetableSlot, minHour: int): int {
    (slot.startHour - minHour) * RowHeight + 1
  }

  /** `height` of a slot's block: at least one row, even for an empty or reversed slot. */
  function BlockHeight(slot: TimetableSlot): int {
    Max(1, slot.endHour - slot.startHour) * RowHeight
  }

  /** Every block of the grid starts at or below the first row line and is at least one row high. */
  lemma BlockBounds(slots: seq<TimetableSlot>, i: nat)
    requires i < |slots|
    ensures BlockTop(slots[i], MinHour(slots)) >= 1
    ensures BlockHeight(slots[i]) >= RowHeight
  {
  }

  /** A slot that ends after it starts has its block's bottom inside the rows of the window. */
  lemma BlockInsideGrid(slots: seq<TimetableSlot>, i: nat)
    requires i < |slots| && slots[i].startHour < slots[i].endHour
    ensures BlockTop(slots[i], MinHour(slots)) + BlockHeight(slots[i]) <= (MaxHour(slots) - MinHour(slots)) * RowHeight + 1
  {
    var s, lo, hi := slots[i], MinHour(slots), MaxHour(slots);
    assert BlockTop(s, lo) + BlockHeight(s) == (s.endHour - lo) * RowHeight + 1;
    assert (s.endHour - lo) * RowHeight <= (hi - lo) * RowHeight;
  }

  /** One rendered class block: the slot, the class it names, and its placement. */
  datatype Block = Block(slot: TimetableSlot, item: ClassItem, top: int, height: int)

  /**
   * The blocks of one day column: the day's slots in list order, each with
   * the first class its class id names; a slot naming no class renders nothing.
   */
  function ColumnBlocks(day: Weekday, classes: seq<ClassItem>, slots: seq<TimetableSlot>, minHour: int): (r: seq<Block>)
    ensures |r| <= |slots|
    ensures forall k :: 0 <= k < |r| ==>
      r[k].slot.day == day && ClassById(classes, r[k].slot.classId) == Some(r[k].item)
      && r[k].top == BlockTop(r[k].slot, minHour) && r[k].height == BlockHeight(r[k].slot)
  {
    if slots == [] then []
    else
      var s := slots[0];
      var item := ClassById(classes, s.classId);
      (if s.day == day && item.Some? then [Block(s, item.value, BlockTop(s, minHour), BlockHeight(s))] else [])
      + ColumnBlocks(day, classes, slots[1..], minHour)
  }

  /** The slot of each block. */
  function BlockSlots(blocks: seq<Block>): seq<TimetableSlot> {
    Seqs.Map(blocks, (b: Block) => b.slot)
  }

  /** A column shows exactly the slots of that day whose class exists, in slot-list order. */
  lemma {:induction false} ColumnBlocksAreFilter(day: Weekday, classes: seq<ClassItem>, slots: seq<TimetableSlot>, minHour: int)
    ensures BlockSlots(ColumnBlocks(day, classes, slots, minHour))
      == Seqs.Filter(slots, (s: TimetableSlot) => s.day == day && HasClass(classes, s.classId))
  {
    if slots != [] {
      ColumnBlocksAreFilter(day, classes, slots[1..], minHour);
      var s := slots[0];
      var head := if s.day == day && ClassById(classes, s.classId).Some? then [Block(s, ClassById(classes, s.classId).value, BlockTop(s, minHour), BlockHeight(s))] else [];
      Seqs.MapConcat(head, ColumnBlocks(day, classes, slots[1..], minHour), (b: Block) => b.slot);
    }
  }

  /** A grid cell: a weekday column and an hour row. */
  datatype Cell = Cell(day: Weekday, hour: int)

  /** `isSelectedStart` */
  predicate IsSelectedStart(selected: Option<Cell>, day: Weekday, hour: int) {
    selected.Some? && selected.value.day == day && selected.value.hour == hour
  }

  /** At most one cell is the selected start. */
  lemma SelectedStartUnique(selected: Option<Cell>, a: Cell, b: Cell)
    requires IsSelectedStart(selected, a.day, a.hour) && IsSelectedStart(selected, b.day, b.hour)
    ensures a == b && selected == Some(a)
  {
  }

  /**
   * `hasPreviewRange`: add mode is on, a start is selected, the preview end is
   * given and non-zero (a zero end is falsy) and after the start, and the cell
   * lies on the start's day from the start hour up to, not including, the end.
   */
  predicate IsPreviewCell(addMode: bool, selected: Option<Cell>, previewEnd: Option<int>, day: Weekday, hour: int) {
    addMode && selected.Some? && previewEnd.Some? && previewEnd.value != 0
    && previewEnd.value > selected.value.hour
    && day == selected.value.day && selected.value.hour <= hour < previewEnd.value
  }

  /** The preview cells of one day: the hours from the start up to the end, nothing else. */
  function PreviewHours(addMode: bool, selected: Option<Cell>, previewEnd: Option<int>, day: Weekday, hours: seq<int>): (r: seq<int>)
    ensures forall k :: 0 <= k < |r| ==> IsPreviewCell(addMode, selected, previewEnd, day, r[k]) && r[k] in hours
    ensures forall k :: 0 <= k < |hours| && IsPreviewCell(addMode, selected, previewEnd, day, hours[k]) ==> hours[k] in r
  {
    Seqs.Filter(hours, (h: int) => IsPreviewCell(addMode, selected, previewEnd, day, h))
  }

  /** Whenever some cell is a preview cell, so is the selected start cell itself, and the end hour is not. */
  lemma PreviewContainsStart(addMode: bool, selected: Option<Cell>, previewEnd: Option<int>, day: Weekday, hour: int)
    requires IsPreviewCell(addMode, selected, previewEnd, day, hour)
    ensures IsPreviewCell(addMode, selected, previewEnd, selected.value.day, selected.value.hour)
    ensures IsSelectedStart(selected, day, selected.value.hour)
    ensures !IsPreviewCell(addMode, selected, previewEnd, day, previewEnd.value)
  {
  }

  /** Outside add mode, and without a selected start, no cell is a preview cell. */
  lemma NoPreviewWithoutSelection(selected: Option<Cell>, previewEnd: Option<int>, day: Weekday, hour: int)
    ensures !IsPreviewCell(false, selected, previewEnd, day, hour)
    ensures !IsPreviewCell(true, None, previewEnd, day, hour)
  {
  }

  /** A press on a cell is forwarded, as `(day, hour)`, only in add mode and only when a handler is given. */
  function CellPress(addMode: bool, hasHandler: bool, day: Weekday, hour: int): (r: Option<Cell>)
    ensures r.Some? <==> addMode && hasHandler
    ensures r.Some? ==> r.value == Cell(day, hour)
  {
    if addMode && hasHandler then Some(Cell(day, hour)) else None
  }
}
