# Activity chart: a Dafny model

This project models `work.py`, a tool that draws a GitHub-style heatmap of
commits per day from one or more Mercurial repositories. The model covers
four pieces of the tool:

- **Intensity** (`intensity.dfy`): `get_box_color`. It maps a day's commit
  count to one of five palette colours, identified by palette index.
- **Chart** (`chart.dfy`): the canvas geometry of `create_empty_chart` and
  the calendar grid of `draw_daily_boxes`. The SVG drawing is a `Drawing`
  object holding the rectangles added to it, background first.
- **CommitCounts** (`counts.dfy`): `extract_cl_counts`. A dictionary from day
  to commit count, updated in place once per commit, and the sum of its
  values.
- **Work** (`work.dfy`): `main`. It threads the dictionary through every
  repository, falling back to the current directory when no path is given.
  Then it draws the chart and saves it. The saved rectangles and the printed
  total come back as an `Outcome` value.

Days are integers counted from 1970-01-01, a Thursday (`calendar.dfy`).
`Weekday(d) = (d + 3) % 7`, with 0 = Monday as in Python's `date.weekday()`.
The window length `n` and `today` are parameters; the program fixes `n` at
`NumDaysToShow = 365`. A repository is given by the days of its commits, in
changelog order, or as `Unreadable` when Mercurial cannot open it.

The window starts on `start = today - (n - 1)`. Day `start + i` gets grid
position `Weekday(start) + i`. That position's column is `position / 7`, its
row is `position % 7`, and its pixel origin is `6 + 13 * column`,
`6 + 13 * row`. The proofs show:

- rows are weekdays (Monday on top);
- columns count Monday-to-Sunday weeks from the week that contains the window's first day; column 0 is that week, possibly partial;
- no two boxes overlap;
- the last box is today's.

The canvas has `NumWeeks(n, today) = ceil(n / 7)` columns, plus one when
`Weekday(today) + 1 < n % 7`. The predicate is modelled exactly as written.
When `n % 7 != 0`, the last box lands exactly in the last column, so every box
fits the canvas (`LastBoxInLastColumn`, `DailyBoxesFitCanvas`). When
`n % 7 == 0` the predicate can never hold. Then the last box fits only when
today is a Sunday; on any other day it lies one column past the right edge
(`LastBoxWhenWholeWeeks`). The configured 365 is not a multiple of seven, so
the shipped program is not affected. For 365, `365 % 7 == 1`, so the extra
column is never added: the canvas always has 53 columns and is 699 × 101
pixels (`ConfiguredCanvas`). So with 365 days no choice of `today` gives two
canvas widths; `ExtraWeekExample` shows the two widths for a 12-day window.

## Model

| member | source | states |
|---|---|---|
| `Calendar.Weekday` | work.py:74 | the weekday of a day is in 0..6 (Monday = 0) |
| `Calendar.WeekdayNext` | work.py:82 | the weekday advances by one per day and wraps from Sunday to Monday |
| `Calendar.WeekdayWeekLater` | work.py:79 | days a whole number of weeks apart share a weekday, hence a row |
| `Calendar.MondayOf` | work.py:78 | the start of a day's week is a Monday within the six days before it |
| `Calendar.StartDate` | work.py:133 | a window of `n > 0` days starting on `StartDate(today, n)` ends on `today` |
| `Intensity.BoxColor` | work.py:59-70 | the colour index is always a valid index into the five-colour palette |
| `Intensity.BoxColorIsThresholdsReached` | work.py:61-70 | the bucket equals the number of thresholds 1, 2, 4, 6 the count reaches (an independent reference definition) |
| `Intensity.ReachedMonotone` | work.py:61-70 | reaching thresholds is monotone in the count |
| `Intensity.BoxColorMonotone` | work.py:61-70 | more commits never give a weaker colour |
| `Intensity.BoxColorRanges` | work.py:61-70 | bucket `b` holds exactly the counts from threshold `b-1` up to below threshold `b`; counts below 1, negatives included, get bucket 0 |
| `Intensity.BoxColorSamples` | work.py:61-70 | the classifier's sample values: 0→0, 1→1, 2,3→2, 4,5→3, 6 and 1000000→4, -5→0 |
| `Chart.Drawing.constructor` | work.py:55 | a new drawing has the given size and no elements |
| `Chart.Drawing.Add` | work.py:56 | adding a rectangle appends it to the drawing's element list |
| `Chart.CeilWeeks` | work.py:44 | the result is the ceiling of `n / 7`: the least week count holding `n` days |
| `Chart.NumWeeks` | work.py:44-48 | the week count W satisfies `7 * W >= n` and `W <= ceil(n / 7) + 1` (whether the window fits is `LastBoxInLastColumn` / `LastBoxWhenWholeWeeks`) |
| `Chart.CanvasSize` | work.py:50-53 | the width is one 13-pixel pitch per week plus margins (`13W + 10`); the height is 101 |
| `Chart.ConfiguredCanvas` | work.py:32-53 | with 365 days the extra week never applies: 53 columns, 699 pixels wide, for every today |
| `Chart.CreateEmptyChart` | work.py:41-57 | the new drawing has the canvas width for `NumWeeks(n, today)`, height 101, and only a white background covering it |
| `Chart.ExtraWeek` | work.py:45 | the extra-column test as written; it can only hold when at least two days are left over after whole weeks, and never when `n` is a multiple of seven |
| `Chart.CanvasWidth` | work.py:50-51 | the canvas width is the right edge of the last column's boxes plus the margin |
| `Chart.CanvasHeight` | work.py:52-53 | the canvas height is the bottom edge of the seventh row's boxes plus the margin |
| `Chart.Background` | work.py:56 | the background is white and covers the canvas from the origin to its width and height |
| `Chart.Column` | work.py:78 | the column of a grid position is its week: the position lies in `[7 * column, 7 * column + 7)` |
| `Chart.Row` | work.py:79 | the row is below 7, and column and row together give back the grid position |
| `Chart.BoxAt` | work.py:78-90 | a day box is 11×11 with the given colour, starts inside the margins and ends above the bottom margin |
| `Chart.DayBox` | work.py:82-87 | the box of the `offset`-th day is coloured by that day's count, 0 when the day has no entry |
| `Chart.DailyBoxes` | work.py:76-90 | the `k`-day box list has exactly `k` boxes |
| `Chart.DrawDailyBoxes` | work.py:72-90 | the drawing gains exactly the `n` day boxes of the window, in date order, after what it held before |
| `Chart.DailyBoxesAt` | work.py:76-90 | the `i`-th box drawn is the box for day `start + i` at position `Weekday(start) + i` |
| `Chart.CellsDistinct` | work.py:78-79 | distinct positions have distinct (column, row) cells |
| `Chart.BoxesApart` | work.py:33-35 | boxes at distinct positions never overlap, because the 13-pixel pitch exceeds the 11-pixel box |
| `Chart.DailyBoxesDisjoint` | work.py:76-90 | no two day boxes of a chart share area |
| `Chart.RowIsWeekday` | work.py:74-79 | the row of day `start + i` is that day's weekday |
| `Chart.ColumnIsWeek` | work.py:74-78 | the column of day `start + i` is the number of Monday-started weeks since the start's week |
| `Chart.DayBoxForDate` | work.py:76-90 | box `i` is day `start + i`'s: weekday row, week column, 11×11, coloured by that day's count (0 when absent) |
| `Chart.LastBoxIsToday` | work.py:75-76 | in a window ending today, the last box is in today's weekday row and shows today's count |
| `Chart.LastBoxInLastColumn` | work.py:44-48 | when `n % 7 != 0`, the last box's column is exactly `NumWeeks - 1` |
| `Chart.LastBoxWhenWholeWeeks` | work.py:45 | when `n % 7 == 0`, no extra week is added, and the last box fits only on a Sunday; otherwise it is one column past the canvas |
| `Chart.BoxInCanvas` | work.py:50-53 | a box whose column is below the week count lies inside the canvas margins, touching the right margin in the last column |
| `Chart.DailyBoxesFitCanvas` | work.py:44-53 | when `n % 7 != 0`, every day box lies inside the canvas and the last column is filled up to the margin |
| `Chart.ExtraWeekExample` | work.py:45-48 | a 12-day window is 49 pixels wide when today is a Monday and 36 when it is a Sunday |
| `CommitCounts.ClCounts.constructor` | work.py:122 | the dictionary starts empty |
| `CommitCounts.ClCounts.ExtractClCounts` | work.py:92-108 | an unreadable repository changes nothing and is reported; otherwise the dictionary becomes the old one with every commit counted; every value stays at least 1 |
| `CommitCounts.CountOn` | work.py:83-86 | the count of a day in the dictionary is its stored value, zero when the day has no entry, and with every stored value at least 1 it is positive exactly when the day is present |
| `CommitCounts.Increment` | work.py:105-108 | one more commit on a day in the dictionary; its effect is stated by `IncrementEffect` |
| `CommitCounts.IncrementEffect` | work.py:105-108 | one more commit on `d` adds `d` to the keys, adds one to its count and leaves every other day's count alone |
| `CommitCounts.Tally` | work.py:96-108 | the dictionary after one commit per listed day, in order; its properties are the `Tally…` lemmas below |
| `CommitCounts.Total` | work.py:140 | `sum(cl_counts.itervalues())`; an empty dictionary sums to 0 |
| `CommitCounts.TotalCount` | work.py:140 | visiting every key once sums all stored counts |
| `CommitCounts.SumOverRemove` | work.py:140 | the sum of the values does not depend on the order keys are visited |
| `CommitCounts.IncrementTotal` | work.py:105-108 | one more commit adds one to the sum of the values |
| `CommitCounts.TallyCount` | work.py:105-108 | after a list of commits each day's count is its old count plus the number of commits on that day |
| `CommitCounts.TallyKeys` | work.py:105-108 | the keys afterwards are the old keys plus the commit days, so days not in the list are left alone |
| `CommitCounts.TallyPositive` | work.py:105-108 | every stored value stays at least 1 |
| `CommitCounts.TallyTotal` | work.py:105-108 | the sum of the values grows by the number of commits |
| `CommitCounts.TallyConcat` | work.py:122-128 | counting one list and then another is counting their concatenation |
| `CommitCounts.TallyPermutation` | work.py:96-108 | the dictionary does not depend on the order of the commits |
| `Work.Scanned` | work.py:123-128 | the given paths are scanned, or the current directory alone when none are given |
| `Work.Run` | work.py:115-140 | the first unreadable repository aborts the run. Otherwise the saved drawing is the background then one box per day, coloured by all repositories' commits, and the printed total is the number of commits |
| `Work.CommitLog` | work.py:124-125 | the commit days of the scanned repositories, in scanning order; its shape is stated by `CommitLogConcat` and `ScanStep` |
| `Work.ScanStep` | work.py:124-125 | scanning one more readable repository appends its commits to the log |
| `Work.BoxShowsCount` | work.py:83-87 | in a chart built from a list of commit days, each day's box is coloured by that day's number of occurrences in the list |
| `Work.CommitLogConcat` | work.py:124-125 | the commits of two groups of repositories are the commits of the first group followed by those of the second |
| `Work.RepositoryOrderIrrelevant` | work.py:122-128 | scanning repository group A before B gives the same dictionary as B before A |
| `Work.BoxShowsCommitsOfDay` | work.py:83-87 | each day's box is coloured by the number of commits on that day across all scanned repositories |
| `Work.NoCommitsAllWeakest` | work.py:83-87 | with no commits every box gets the weakest colour |
| `Work.ThreeCommitsOneDay` | work.py:83-87 | three commits on one day, over a seven-day window of its week: that box gets bucket 2 and the other six get bucket 0 |

## Left out

- Mercurial access (`hg.repository`, `changelog.lookup`/`read`): a foreign library. A repository is the list of its commit days, or `Unreadable`.
- `CommitCounts.ClCounts.ExtractClCounts`: `hg.repository` raises an exception on a bad path; the model returns `false` before anything is counted, and `Run` stops there, which is where the exception would end the program.
- `date.fromtimestamp`: turning a UNIX timestamp into a local day depends on the time zone; commit days are given as day numbers.
- `date.today()`: it reads the clock. The source calls it three times: when sizing the canvas (work.py:45), when choosing the start date (work.py:133), and for the date in the summary line (work.py:139), which only affects the printed text. The model takes one `today` for the first two, so a run that crosses midnight between them is not modelled.
- svgwrite output (`Drawing`, `rect`, `save`): the file is not written. The drawing is the list of rectangles added to it, and `Run` returns that list as what `save` persists. A failure to write the file is not modelled.
- `view_chart` (`subprocess.call` of the image viewer, stderr discarded): process I/O. If the viewer cannot be started, `subprocess.call` raises `OSError` after the file is saved (work.py:113, called at work.py:138) and the summary line of work.py:139-140 is never printed; `Saved` assumes the viewer starts.
- argparse, `os.getcwd`, path joining and the text of the summary line: CLI and environment plumbing. Only the total the summary prints is modelled; the current directory's repository is a parameter.
- `math.ceil(NUM_DAYS_TO_SHOW / 7.0)` works on floats, and in Python 2.7 the width comes out as a float (699.0). The model uses the integer ceiling `(n + 6) / 7`, which agrees with the float computation for every `n` below 2^53, and so for every window `timedelta` accepts.
- Hex colour strings: boxes carry palette indices 0..4 into `BoxColors`; the background is `White`.
- `Chart.DailyBoxesFitCanvas`: proved only for `n % 7 != 0`. For whole weeks the source's predicate makes the canvas one column too narrow unless today is a Sunday, as `Chart.LastBoxWhenWholeWeeks` shows; the configured 365 is not such a length.

## Notes

- Rows follow `date.weekday()`: row 0 is Monday and row 6 is Sunday.
- With 365 days, `365 % 7 == 1`, so the extra-column test `Weekday(today) + 1 < 1` never holds and the canvas width never changes with today (`Chart.ConfiguredCanvas`).
- Negative counts also map to bucket 0 (`Intensity.BoxColorRanges`).
