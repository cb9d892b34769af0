/** The heatmap drawing: canvas geometry (`create_empty_chart`) and the
    calendar grid of day boxes (`draw_daily_boxes`).

    The SVG drawing is modelled as the list of rectangles added to it, in
    the order they are added; the background rectangle comes first. */
module Chart {
  import opened Calendar
  import opened Intensity
  import opened CommitCounts

  /** Length of the window, in days, and rows of the grid. */
  const NumDaysToShow: nat := 365
  const DaysInWeek: nat := 7

  // Sizes of the boxes and of the space around them, in pixels.
  const DayBoxSize: nat := 11
  const DayBoxSeparation: nat := 2
  const DistanceBetweenBoxes: nat := DayBoxSize + DayBoxSeparation
  const Margin: nat := 6

  /** Fill of a rectangle: the white background or a palette colour. */
  datatype Fill = White | Shade(color: nat)

  datatype Rect = Rect(x: int, y: int, width: int, height: int, fill: Fill)

  /** Two rectangles overlap when their interiors intersect. */
  predicate Overlap(a: Rect, b: Rect)
  {
    a.x < b.x + b.width && b.x < a.x + a.width &&
    a.y < b.y + b.height && b.y < a.y + a.height
  }

  /** The drawing surface: a fixed size and the rectangles added so far. */
  class Drawing {
    const width: int
    const height: int
    var elements: seq<Rect>

    constructor (width: int, height: int)
      ensures this.width == width && this.height == height
      ensures elements == []
    {
      this.width := width;
      this.height := height;
      elements := [];
    }

    method Add(r: Rect)
      modifies this
      ensures elements == old(elements) + [r]
    {
      elements := elements + [r];
    }
  }

  // ---------------------------------------------------------------------
  // Canvas geometry

  /** `math.ceil(n / 7.0)` on integers. */
  function CeilWeeks(n: nat): (w: nat)
    ensures 7 * w >= n && 7 * (w - 1) < n
  {
    (n + 6) / 7
  }

  /** The source's test for one more column: the last week only has room for
      `today.weekday() + 1` of the `n % 7` days that do not fill whole weeks. */
  predicate ExtraWeek(n: nat, today: Day)
    ensures ExtraWeek(n, today) ==> n % 7 >= 2
    ensures n % 7 == 0 ==> !ExtraWeek(n, today)
  {
    Weekday(today) + 1 < n % 7
  }

  /** Number of week columns of the canvas. */
  function NumWeeks(n: nat, today: Day): (w: nat)
    ensures 7 * w >= n
    ensures w <= CeilWeeks(n) + 1
  {
    CeilWeeks(n) + if ExtraWeek(n, today) then 1 else 0
  }

  /** Width of a canvas of `numWeeks` columns: the right edge of the last
      column's boxes plus the margin. */
  function CanvasWidth(numWeeks: int): (width: int)
    ensures width == Margin + (numWeeks - 1) * DistanceBetweenBoxes + DayBoxSize + Margin
  {
    2 * Margin + numWeeks * DayBoxSize + (numWeeks - 1) * DayBoxSeparation
  }

  /** Height of the canvas: the bottom edge of the seventh row's boxes plus
      the margin. */
  function CanvasHeight(): (height: int)
    ensures height == Margin + (DaysInWeek - 1) * DistanceBetweenBoxes + DayBoxSize + Margin
  {
    2 * Margin + DaysInWeek * DayBoxSize + (DaysInWeek - 1) * DayBoxSeparation
  }

  /** The background rectangle that covers the whole canvas. */
  function Background(width: int, height: int): (r: Rect)
    ensures r.fill == White
    ensures r.x == 0 && r.y == 0 && r.x + r.width == width && r.y + r.height == height
  {
    Rect(0, 0, width, height, White)
  }

  /** The canvas is one box pitch per week plus the outer margins, and the
      height holds exactly seven rows. */
  lemma CanvasSize(numWeeks: int)
    ensures CanvasWidth(numWeeks) == DistanceBetweenBoxes * numWeeks + 2 * Margin - DayBoxSeparation
    ensures CanvasWidth(numWeeks) == 13 * numWeeks + 10
    ensures CanvasHeight() == 101
  {
  }

  /** With the configured 365 days the extra column is never added, so the
      canvas always has 53 columns and is 699 pixels wide, whatever today is. */
  lemma ConfiguredCanvas(today: Day)
    ensures !ExtraWeek(NumDaysToShow, today)
    ensures NumWeeks(NumDaysToShow, today) == 53
    ensures CanvasWidth(NumWeeks(NumDaysToShow, today)) == 699
  {
  }

  /** Creates the canvas with its white background (`create_empty_chart`). */
  method CreateEmptyChart(n: nat, today: Day) returns (chart: Drawing)
    ensures fresh(chart)
    ensures chart.width == CanvasWidth(NumWeeks(n, today))
    ensures chart.height == CanvasHeight()
    ensures chart.elements == [Background(chart.width, chart.height)]
  {
    var numDaysInWeek := DaysInWeek;
    var numWeeks := CeilWeeks(n);
    if Weekday(today) + 1 < n % 7 {
      numWeeks := numWeeks + 1;
    }
    var width := 2 * Margin + numWeeks * DayBoxSize + (numWeeks - 1) * DayBoxSeparation;
    var height := 2 * Margin + numDaysInWeek * DayBoxSize + (numDaysInWeek - 1) * DayBoxSeparation;
    chart := new Drawing(width, height);
    chart.Add(Background(width, height));
  }

  // ---------------------------------------------------------------------
  // Grid layout

  /** Grid positions fill a column (one week) before moving to the next. */
  function Column(dayIndex: nat): (col: nat)
    ensures 7 * col <= dayIndex < 7 * col + 7
  {
    dayIndex / 7
  }

  function Row(dayIndex: nat): (row: nat)
    ensures row < 7 && dayIndex == 7 * Column(dayIndex) + row
  {
    dayIndex % 7
  }

  /** The box drawn for grid position `dayIndex` with palette colour `color`. */
  function BoxAt(dayIndex: nat, color: nat): (r: Rect)
    ensures r.width == DayBoxSize && r.height == DayBoxSize && r.fill == Shade(color)
    ensures Margin <= r.x && Margin <= r.y && r.y + r.height + Margin <= CanvasHeight()
  {
    Rect(Margin + Column(dayIndex) * DistanceBetweenBoxes,
         Margin + Row(dayIndex) * DistanceBetweenBoxes,
         DayBoxSize, DayBoxSize, Shade(color))
  }

  /** The box for the `offset`-th day of a window that starts on `start`:
      its grid position is `Weekday(start) + offset`. */
  function DayBox(start: Day, offset: nat, counts: map<Day, nat>): (r: Rect)
    ensures r.fill == Shade(BoxColor(CountOn(counts, start + offset)))
  {
    BoxAt(Weekday(start) + offset, BoxColor(CountOn(counts, start + offset)))
  }

  /** The boxes for the first `k` days of a window that starts on `start`, in
      the order they are drawn. */
  function DailyBoxes(start: Day, k: nat, counts: map<Day, nat>): (boxes: seq<Rect>)
    ensures |boxes| == k
  {
    if k == 0 then [] else DailyBoxes(start, k - 1, counts) + [DayBox(start, k - 1, counts)]
  }

  /** Draws one box per day of the window (`draw_daily_boxes`). */
  method DrawDailyBoxes(chart: Drawing, startDate: Day, counts: map<Day, nat>, n: nat)
    modifies chart
    ensures chart.elements == old(chart.elements) + DailyBoxes(startDate, n, counts)
  {
    var firstDayToShow := Weekday(startDate);
    var lastDayToShow := firstDayToShow + n;
    for dayIndex := firstDayToShow to lastDayToShow
      invariant chart.elements == old(chart.elements) + DailyBoxes(startDate, dayIndex - firstDayToShow, counts)
    {
      var x := Margin + (dayIndex / 7) * DistanceBetweenBoxes;
      var y := Margin + (dayIndex % 7) * DistanceBetweenBoxes;
      var day := startDate + (dayIndex - firstDayToShow);
      var color;
      if day in counts {
        color := BoxColor(counts[day]);
      } else {
        color := BoxColor(0);
      }
      chart.Add(Rect(x, y, DayBoxSize, DayBoxSize, Shade(color)));
    }
  }

  // ---------------------------------------------------------------------
  // Properties of the layout

  lemma {:induction false} DailyBoxesAt(start: Day, k: nat, counts: map<Day, nat>, i: nat)
    requires i < k
    ensures DailyBoxes(start, k, counts)[i] == DayBox(start, i, counts)
  {
    if i < k - 1 {
      DailyBoxesAt(start, k - 1, counts, i);
    }
  }

  /** Distinct grid positions are distinct (column, row) cells. */
  lemma CellsDistinct(a: nat, b: nat)
    requires a != b
    ensures Column(a) != Column(b) || Row(a) != Row(b)
  {
  }

  /** Boxes at distinct grid positions never overlap: the pitch between boxes
      is larger than a box. */
  lemma BoxesApart(a: nat, b: nat, colorA: nat, colorB: nat)
    requires a != b
    ensures !Overlap(BoxAt(a, colorA), BoxAt(b, colorB))
  {
    CellsDistinct(a, b);
  }

  /** No two day boxes of the chart share area. */
  lemma DailyBoxesDisjoint(start: Day, n: nat, counts: map<Day, nat>, i: nat, j: nat)
    requires i < n && j < n && i != j
    ensures !Overlap(DailyBoxes(start, n, counts)[i], DailyBoxes(start, n, counts)[j])
  {
    DailyBoxesAt(start, n, counts, i);
    DailyBoxesAt(start, n, counts, j);
    BoxesApart(Weekday(start) + i, Weekday(start) + j,
               BoxColor(CountOn(counts, start + i)), BoxColor(CountOn(counts, start + j)));
  }

  /** The row of the `offset`-th day is its weekday. */
  lemma RowIsWeekday(start: Day, offset: nat)
    ensures Row(Weekday(start) + offset) == Weekday(start + offset)
  {
  }

  /** The column of the `offset`-th day counts calendar weeks (Monday to
      Sunday) from the week of `start` to the week of that day; column 0 is
      the week of `start`, possibly partial. */
  lemma ColumnIsWeek(start: Day, offset: nat)
    ensures 7 * Column(Weekday(start) + offset) == MondayOf(start + offset) - MondayOf(start)
  {
    RowIsWeekday(start, offset);
  }

  /** The `i`-th box drawn is for day `start + i`: it sits in that day's
      weekday row and week column and shows that day's commit count. */
  lemma DayBoxForDate(start: Day, n: nat, counts: map<Day, nat>, i: nat)
    requires i < n
    ensures var box := DailyBoxes(start, n, counts)[i];
      box.y == Margin + Weekday(start + i) * DistanceBetweenBoxes &&
      box.x == Margin + (MondayOf(start + i) - MondayOf(start)) / 7 * DistanceBetweenBoxes &&
      box.width == DayBoxSize && box.height == DayBoxSize &&
      box.fill == Shade(BoxColor(CountOn(counts, start + i)))
  {
    DailyBoxesAt(start, n, counts, i);
    RowIsWeekday(start, i);
    ColumnIsWeek(start, i);
  }

  /** In a window ending today, the last box drawn is today's. */
  lemma LastBoxIsToday(today: Day, n: nat, counts: map<Day, nat>)
    requires n > 0
    ensures var box := DailyBoxes(StartDate(today, n), n, counts)[n - 1];
      box.y == Margin + Weekday(today) * DistanceBetweenBoxes &&
      box.fill == Shade(BoxColor(CountOn(counts, today)))
  {
    DayBoxForDate(StartDate(today, n), n, counts, n - 1);
  }

  /** Grid position of the last box of a window of `n` days ending on `today`. */
  function LastIndex(n: nat, today: Day): nat
    requires n > 0
  {
    Weekday(StartDate(today, n)) + n - 1
  }

  /** When `n` is not a multiple of seven, the last box lands exactly in the
      last column of the canvas: the extra-week test adds the column that the
      final partial week needs, and only then. */
  lemma LastBoxInLastColumn(n: nat, today: Day)
    requires n > 0 && n % 7 != 0
    ensures Column(LastIndex(n, today)) == NumWeeks(n, today) - 1
  {
    RowIsWeekday(StartDate(today, n), n - 1);
    assert Row(LastIndex(n, today)) == Weekday(today);
  }

  /** When `n` is a multiple of seven the extra-week test never fires, and the
      last box lies in the canvas only when today is a Sunday; on any other
      day it falls one column past the right edge. */
  lemma LastBoxWhenWholeWeeks(n: nat, today: Day)
    requires n > 0 && n % 7 == 0
    ensures !ExtraWeek(n, today)
    ensures Column(LastIndex(n, today)) ==
      if Weekday(today) == Sunday then NumWeeks(n, today) - 1 else NumWeeks(n, today)
  {
    RowIsWeekday(StartDate(today, n), n - 1);
    assert Row(LastIndex(n, today)) == Weekday(today);
  }

  /** A box in column `c` and any row: it lies inside the margins of a canvas
      of `numWeeks` columns when `c < numWeeks`, and touches the right margin
      when `c` is the last column. */
  lemma BoxInCanvas(dayIndex: nat, color: nat, numWeeks: nat)
    requires Column(dayIndex) < numWeeks
    ensures var box := BoxAt(dayIndex, color);
      Margin <= box.x && box.x + box.width + Margin <= CanvasWidth(numWeeks) &&
      Margin <= box.y && box.y + box.height + Margin <= CanvasHeight() &&
      (Column(dayIndex) == numWeeks - 1 ==> box.x + box.width + Margin == CanvasWidth(numWeeks))
  {
  }

  /** When `n` is not a multiple of seven, every day box of a window ending
      today lies inside the canvas, and the last column is used. */
  lemma DailyBoxesFitCanvas(today: Day, n: nat, counts: map<Day, nat>, i: nat)
    requires n % 7 != 0 && i < n
    ensures var box := DailyBoxes(StartDate(today, n), n, counts)[i];
      Margin <= box.x && box.x + box.width + Margin <= CanvasWidth(NumWeeks(n, today)) &&
      Margin <= box.y && box.y + box.height + Margin <= CanvasHeight()
    ensures var last := DailyBoxes(StartDate(today, n), n, counts)[n - 1];
      last.x + last.width + Margin == CanvasWidth(NumWeeks(n, today))
  {
    var start := StartDate(today, n);
    LastBoxInLastColumn(n, today);
    DailyBoxesAt(start, n, counts, i);
    DailyBoxesAt(start, n, counts, n - 1);
    assert Column(Weekday(start) + i) <= Column(LastIndex(n, today));
    BoxInCanvas(Weekday(start) + i, BoxColor(CountOn(counts, start + i)), NumWeeks(n, today));
    BoxInCanvas(LastIndex(n, today), BoxColor(CountOn(counts, today)), NumWeeks(n, today));
  }

  /** The two widths of a 12-day window: 3 columns when today is a Monday
      (the extra week is added), 2 columns when today is a Sunday. */
  lemma ExtraWeekExample()
    ensures ExtraWeek(12, 4) && CanvasWidth(NumWeeks(12, 4)) == 49
    ensures !ExtraWeek(12, 3) && CanvasWidth(NumWeeks(12, 3)) == 36
  {
  }
}
