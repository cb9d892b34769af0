/** The tool's main flow (`main`): scan every repository into one dictionary
    of commit counts, draw the chart for the trailing window ending today,
    save it, and report the total number of commits.

    The saved SVG file and the summary line are returned as an `Outcome`
    value; launching the viewer and formatting the date are not modelled. */
module Work {
  import opened Calendar
  import opened Intensity
  import opened Chart
  import opened CommitCounts

  /** What a run leaves behind: either opening a repository failed (the
      exception aborts the run before anything is drawn), or the chart was
      saved and the total was printed. `Saved` assumes the image viewer
      starts: when it cannot be started, `subprocess.call` raises `OSError`
      after the file is saved, and the summary line is never printed. */
  datatype Outcome =
    | AccessError(repository: nat)
    | Saved(width: int, height: int, elements: seq<Rect>, total: nat)

  /** The repositories `main` scans: the paths given on the command line, or
      the current directory when there are none. */
  function Scanned(paths: seq<Repository>, currentDirectory: Repository): (repos: seq<Repository>)
    ensures |repos| > 0
    ensures paths != [] ==> repos == paths
    ensures paths == [] ==> repos == [currentDirectory]
  {
    if paths != [] then paths else [currentDirectory]
  }

  function DaysOf(repository: Repository): seq<Day>
  {
    if repository.Readable? then repository.commitDays else []
  }

  /** Days of all commits of the readable repositories, in scanning order. */
  function CommitLog(repos: seq<Repository>): seq<Day>
  {
    if repos == [] then [] else CommitLog(repos[..|repos| - 1]) + DaysOf(repos[|repos| - 1])
  }

  predicate AllReadable(repos: seq<Repository>)
  {
    forall i :: 0 <= i < |repos| ==> repos[i].Readable?
  }

  /** One run of the tool. The first repository that cannot be opened aborts
      the run; otherwise the saved drawing is the white background followed by
      one box per day of the window, coloured by that day's commits across all
      repositories, and the printed total is the number of commits. */
  method Run(paths: seq<Repository>, currentDirectory: Repository, today: Day, numDays: nat)
    returns (outcome: Outcome)
    ensures var repos := Scanned(paths, currentDirectory);
      match outcome
      case AccessError(k) =>
        k < |repos| && repos[k].Unreadable? && AllReadable(repos[..k])
      case Saved(width, height, elements, total) =>
        AllReadable(repos) &&
        width == CanvasWidth(NumWeeks(numDays, today)) &&
        height == CanvasHeight() &&
        elements == [Background(width, height)] +
          DailyBoxes(StartDate(today, numDays), numDays, Tally(map[], CommitLog(repos))) &&
        total == |CommitLog(repos)|
  {
    var clCounts := new ClCounts();
    var repos := Scanned(paths, currentDirectory);
    ghost var log: seq<Day> := [];
    for i := 0 to |repos|
      invariant clCounts.Valid()
      invariant AllReadable(repos[..i])
      invariant log == CommitLog(repos[..i])
      invariant clCounts.counts == Tally(map[], log)
    {
      var readable := clCounts.ExtractClCounts(repos[i]);
      if !readable {
        return AccessError(i);
      }
      ScanStep(repos, i);
      TallyConcat(map[], log, repos[i].commitDays);
      log := log + repos[i].commitDays;
    }
    assert repos[..|repos|] == repos;
    assert AllReadable(repos);

    ghost var counts := clCounts.counts;
    var chart := CreateEmptyChart(numDays, today);
    var startDate := today - (numDays - 1);
    assert startDate == StartDate(today, numDays);
    DrawDailyBoxes(chart, startDate, clCounts.counts, numDays);
    assert clCounts.counts == counts;
    assert chart.elements == [Background(chart.width, chart.height)] + DailyBoxes(startDate, numDays, counts);

    var total := TotalCount(clCounts.counts);
    TallyTotal(map[], log);
    assert Total(map[]) == 0;
    assert total == |log|;
    outcome := Saved(chart.width, chart.height, chart.elements, total);
  }

  // ---------------------------------------------------------------------
  // Properties of a run

  /** Scanning one more readable repository appends its commits to the log. */
  lemma ScanStep(repos: seq<Repository>, i: nat)
    requires i < |repos| && repos[i].Readable?
    ensures CommitLog(repos[..i + 1]) == CommitLog(repos[..i]) + repos[i].commitDays
  {
    assert repos[..i + 1][..i] == repos[..i];
  }

  lemma {:induction false} CommitLogConcat(a: seq<Repository>, b: seq<Repository>)
    ensures CommitLog(a + b) == CommitLog(a) + CommitLog(b)
  {
    if b == [] {
      assert a + b == a;
    } else {
      assert (a + b)[..|a + b| - 1] == a + b[..|b| - 1];
      CommitLogConcat(a, b[..|b| - 1]);
    }
  }

  /** Scanning a group of repositories before or after another gives the
      same dictionary. */
  lemma RepositoryOrderIrrelevant(counts: map<Day, nat>, a: seq<Repository>, b: seq<Repository>)
    ensures Tally(counts, CommitLog(a + b)) == Tally(counts, CommitLog(b + a))
  {
    CommitLogConcat(a, b);
    CommitLogConcat(b, a);
    assert multiset(CommitLog(a) + CommitLog(b)) == multiset(CommitLog(b) + CommitLog(a));
    TallyPermutation(counts, CommitLog(a + b), CommitLog(b + a));
  }

  /** Each day's box shows the number of commits made on that day across all
      scanned repositories. */
  lemma BoxShowsCommitsOfDay(repos: seq<Repository>, today: Day, numDays: nat, i: nat)
    requires i < numDays
    ensures var start := StartDate(today, numDays);
      DailyBoxes(start, numDays, Tally(map[], CommitLog(repos)))[i].fill ==
        Shade(BoxColor(multiset(CommitLog(repos))[start + i]))
  {
    BoxShowsCount(StartDate(today, numDays), numDays, CommitLog(repos), i);
  }

  lemma BoxShowsCount(start: Day, numDays: nat, log: seq<Day>, i: nat)
    requires i < numDays
    ensures DailyBoxes(start, numDays, Tally(map[], log))[i].fill ==
      Shade(BoxColor(multiset(log)[start + i]))
  {
    var counts := Tally(map[], log);
    DailyBoxesAt(start, numDays, counts, i);
    TallyCount(map[], log, start + i);
    assert CountOn(counts, start + i) == multiset(log)[start + i];
  }

  /** With no commits at all every box gets the weakest colour. */
  lemma NoCommitsAllWeakest(repos: seq<Repository>, today: Day, numDays: nat, i: nat)
    requires CommitLog(repos) == [] && i < numDays
    ensures DailyBoxes(StartDate(today, numDays), numDays, Tally(map[], CommitLog(repos)))[i].fill == Shade(0)
  {
    BoxShowsCommitsOfDay(repos, today, numDays, i);
  }

  /** Three commits on one day and a seven-day window over that day's week:
      that day's box gets bucket 2 and the other six get bucket 0. */
  lemma ThreeCommitsOneDay(d: Day, i: nat)
    requires i < 7
    ensures var start := MondayOf(d);
      DailyBoxes(start, 7, Tally(map[], [d, d, d]))[i].fill ==
        if start + i == d then Shade(2) else Shade(0)
  {
    var start := MondayOf(d);
    DayBoxForDate(start, 7, Tally(map[], [d, d, d]), i);
    TallyCount(map[], [d, d, d], start + i);
  }
}
