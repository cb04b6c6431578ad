/**
 * The experiment views: the per-day time series shown on an experiment's
 * detail page (`experiment_details`), the goal-recording beacon
 * (`record_experiment_goal`) and the name-to-state table
 * (`experiment_states`).
 *
 * Calendar dates are day numbers; `today`, the persisted daily activity
 * reports and the conversion snapshot of a date are inputs.
 */
module ExperimentViews {
  import opened Wrappers

  /** A calendar date as a day number; `d - 1` is the day before `d`. */
  type Day = int

  datatype ExperimentState = Disabled | Enabled | Promoted

  datatype Experiment = Experiment(
    name: string,
    state: ExperimentState,
    startDate: Option<Day>,
    endDate: Option<Day>)

  /** A persisted daily activity (engagement) report; the scores and the confidence may be NULL. */
  datatype ActivityReport = ActivityReport(
    controlGroupSize: int,
    controlScore: Option<real>,
    testGroupSize: int,
    testScore: Option<real>,
    confidence: Option<real>)

  /** The `activity_data` dictionary of one day of the time series. */
  datatype ActivityData = ActivityData(
    controlGroupSize: int,
    controlGroupScore: Option<real>,
    testGroupSize: int,
    testGroupScore: Option<real>,
    testGroupImprovement: Option<real>,
    confidence: Option<real>)

  /** One element of `daily_data`; `C` is the conversion snapshot computed for the date. */
  datatype DayEntry<C> = DayEntry(date: Day, conversionData: C, activityData: Option<ActivityData>)

  // ---------------------------------------------------------------------
  // Improvement percentage
  // ---------------------------------------------------------------------

  /**
   * The test group's improvement over the control group, in percent.
   * Defined only when the control score is positive and a test score exists;
   * otherwise absent.
   */
  function Improvement(controlScore: Option<real>, testScore: Option<real>): (r: Option<real>)
    ensures r.Some? <==> controlScore.Some? && controlScore.value > 0.0 && testScore.Some?
  {
    if controlScore.Some? && controlScore.value > 0.0 && testScore.Some? then
      Some((testScore.value - controlScore.value) / controlScore.value * 100.0)
    else
      None
  }

  /**
   * A defined improvement is the percentage by which the test score exceeds
   * the control score: applying it to the control score gives the test
   * score back, and its sign is that of the difference.
   */
  lemma ImprovementMeaning(controlScore: Option<real>, testScore: Option<real>)
    requires Improvement(controlScore, testScore).Some?
    ensures var r := Improvement(controlScore, testScore).value;
            && testScore.value == controlScore.value * (1.0 + r / 100.0)
            && (r > 0.0 <==> testScore.value > controlScore.value)
            && (r == 0.0 <==> testScore.value == controlScore.value)
  {
    var c, t := controlScore.value, testScore.value;
    var p := (t - c) / c * 100.0;
    assert p / 100.0 == (t - c) / c;
    assert c * ((t - c) / c) == t - c;
  }

  /** The outcome of evaluating an expression in the source: a value, or a `TypeError` raised. */
  datatype Evaluation<T> = Returns(value: T) | RaisesTypeError

  /**
   * The improvement expression exactly as the view evaluates it: the guard
   * looks only at the control score (a NULL compares below 0), and the
   * subtraction then fails when the test score is NULL.
   */
  function ImprovementAsWritten(controlScore: Option<real>, testScore: Option<real>): (r: Evaluation<Option<real>>)
    ensures r.RaisesTypeError? <==> controlScore.Some? && controlScore.value > 0.0 && testScore.None?
  {
    if controlScore.Some? && controlScore.value > 0.0 then
      if testScore.Some? then
        Returns(Some((testScore.value - controlScore.value) / controlScore.value * 100.0))
      else
        RaisesTypeError
    else
      Returns(None)
  }

  /** A report with a positive control score and a NULL test score makes the view raise. */
  lemma ImprovementAsWrittenRaises()
    ensures ImprovementAsWritten(Some(1.0), None) == RaisesTypeError
    ensures Improvement(Some(1.0), None) == None
  {
  }

  /** Everywhere the expression as written does not raise, it agrees with `Improvement`. */
  lemma ImprovementAsWrittenAgrees(controlScore: Option<real>, testScore: Option<real>)
    ensures ImprovementAsWritten(controlScore, testScore).Returns? ==>
              ImprovementAsWritten(controlScore, testScore).value == Improvement(controlScore, testScore)
  {
  }

  // ---------------------------------------------------------------------
  // The daily time series
  // ---------------------------------------------------------------------

  /** The last day of the reporting window: the end date, or the day before `today`. */
  function WindowEnd(experiment: Experiment, today: Day): Day
  {
    if experiment.endDate.Some? then experiment.endDate.value else today - 1
  }

  /** The number of days from `start` to `end`, both included. */
  function Span(start: Day, end: Day): nat
  {
    if start <= end then end - start + 1 else 0
  }

  function ActivityDataOf(report: ActivityReport): ActivityData
  {
    ActivityData(report.controlGroupSize, report.controlScore,
                 report.testGroupSize, report.testScore,
                 Improvement(report.controlScore, report.testScore),
                 report.confidence)
  }

  /** The entry the view emits for day `d`: the fresh conversion snapshot and the report, if any. */
  function EntryFor<C>(d: Day, reports: map<Day, ActivityReport>, conversionOf: Day -> C): DayEntry<C>
  {
    DayEntry(d, conversionOf(d), if d in reports then Some(ActivityDataOf(reports[d])) else None)
  }

  /** The entries for the days from `current` down to `start`. */
  function Walk<C>(current: Day, start: Day, reports: map<Day, ActivityReport>, conversionOf: Day -> C): (s: seq<DayEntry<C>>)
    ensures |s| == Span(start, current)
    decreases current - start
  {
    if current < start then []
    else [EntryFor(current, reports, conversionOf)] + Walk(current - 1, start, reports, conversionOf)
  }

  /** The `daily_data` list of the detail page. */
  function DailyData<C>(experiment: Experiment, today: Day, reports: map<Day, ActivityReport>, conversionOf: Day -> C): (r: seq<DayEntry<C>>)
    ensures experiment.startDate.None? ==> r == []
    ensures experiment.startDate.Some? ==> |r| == Span(experiment.startDate.value, WindowEnd(experiment, today))
  {
    match experiment.startDate
    case None => []
    case Some(start) => Walk(WindowEnd(experiment, today), start, reports, conversionOf)
  }

  /** The days from `current` down to `start` that have no report, latest first. */
  function Unreported(current: Day, start: Day, reports: map<Day, ActivityReport>): seq<Day>
    decreases current - start
  {
    if current < start then []
    else (if current in reports then [] else [current]) + Unreported(current - 1, start, reports)
  }

  /** Noting day `current` when it has no report and stepping to the day before keeps the rest to do. */
  lemma UnreportedStep(done: seq<Day>, current: Day, start: Day, reports: map<Day, ActivityReport>)
    requires current >= start
    ensures (if current in reports then done else done + [current]) + Unreported(current - 1, start, reports)
            == done + Unreported(current, start, reports)
  {
    var rest := Unreported(current - 1, start, reports);
    if current !in reports {
      assert (done + [current]) + rest == done + ([current] + rest);
    } else {
      assert [] + rest == rest;
    }
  }

  /** The days of the window for which the detail page logs a missing activity report. */
  function MissingDays(experiment: Experiment, today: Day, reports: map<Day, ActivityReport>): seq<Day>
  {
    match experiment.startDate
    case None => []
    case Some(start) => Unreported(WindowEnd(experiment, today), start, reports)
  }

  /** The unreported days of a walk are exactly its days without a report, each later than the next. */
  lemma {:induction false} UnreportedAre(current: Day, start: Day, reports: map<Day, ActivityReport>)
    ensures var s := Unreported(current, start, reports);
            && (forall d :: d in s <==> start <= d <= current && d !in reports)
            && (forall i :: 0 < i < |s| ==> s[i] < s[i - 1])
    decreases current - start
  {
    if current >= start {
      UnreportedAre(current - 1, start, reports);
      var rest := Unreported(current - 1, start, reports);
      if current !in reports {
        var s := [current] + rest;
        forall i | 0 < i < |s| ensures s[i] < s[i - 1] {
          if i > 1 {
            assert s[i] == rest[i - 1] && s[i - 1] == rest[i - 2];
          } else {
            assert s[i] in rest;
          }
        }
      }
    }
  }

  /**
   * A missing-report warning is logged for exactly the days of the window
   * that have no report, latest first.
   */
  lemma MissingDaysAre(experiment: Experiment, today: Day, reports: map<Day, ActivityReport>)
    ensures var s := MissingDays(experiment, today, reports);
            && (forall d :: d in s <==>
                  experiment.startDate.Some? && experiment.startDate.value <= d <= WindowEnd(experiment, today) && d !in reports)
            && (forall i :: 0 < i < |s| ==> s[i] < s[i - 1])
  {
    if experiment.startDate.Some? {
      UnreportedAre(WindowEnd(experiment, today), experiment.startDate.value, reports);
    }
  }

  /**
   * Builds the time series of an experiment's detail page, walking the
   * window from its last day down to its first. Also returns,
   * latest first, the days for which a warning about a missing activity
   * report is logged.
   */
  method ExperimentDetails<C>(experiment: Experiment, today: Day, reports: map<Day, ActivityReport>, conversionOf: Day -> C)
    returns (dailyData: seq<DayEntry<C>>, missingReports: seq<Day>)
    ensures dailyData == DailyData(experiment, today, reports, conversionOf)
    ensures missingReports == MissingDays(experiment, today, reports)
  {
    dailyData, missingReports := [], [];
    if experiment.startDate.Some? {
      var startDate := experiment.startDate.value;
      var endDate;
      if experiment.endDate.Some? {
        endDate := experiment.endDate.value;
      } else {
        endDate := today - 1;
      }
      assert endDate == WindowEnd(experiment, today);
      var currentDate := endDate;
      while currentDate >= startDate
        invariant currentDate <= endDate
        invariant currentDate == endDate || currentDate >= startDate - 1
        invariant dailyData + Walk(currentDate, startDate, reports, conversionOf) == Walk(endDate, startDate, reports, conversionOf)
        invariant missingReports + Unreported(currentDate, startDate, reports) == Unreported(endDate, startDate, reports)
        decreases currentDate - startDate
      {
        UnreportedStep(missingReports, currentDate, startDate, reports);
        var activityData: Option<ActivityData> := None;
        var activityReport: Option<ActivityReport> := None;
        if currentDate in reports {
          activityReport := Some(reports[currentDate]);
        } else {
          missingReports := missingReports + [currentDate];
        }
        var conversionData := conversionOf(currentDate);
        if activityReport.Some? {
          var report := activityReport.value;
          var improvement := Improvement(report.controlScore, report.testScore);
          activityData := Some(ActivityData(report.controlGroupSize, report.controlScore,
                                            report.testGroupSize, report.testScore,
                                            improvement, report.confidence));
        }
        assert DayEntry(currentDate, conversionData, activityData) == EntryFor(currentDate, reports, conversionOf) by {
          if currentDate in reports {
            assert activityData == Some(ActivityDataOf(reports[currentDate]));
          }
        }
        WalkStep(dailyData, currentDate, startDate, reports, conversionOf);
        dailyData := dailyData + [DayEntry(currentDate, conversionData, activityData)];
        currentDate := currentDate - 1;
      }
      assert Walk(currentDate, startDate, reports, conversionOf) == [];
      assert Unreported(currentDate, startDate, reports) == [];
    }
  }

  /** Emitting the entry of day `current` and stepping to the day before keeps the rest of the walk to do. */
  lemma WalkStep<C>(done: seq<DayEntry<C>>, current: Day, start: Day, reports: map<Day, ActivityReport>, conversionOf: Day -> C)
    requires current >= start
    ensures (done + [EntryFor(current, reports, conversionOf)]) + Walk(current - 1, start, reports, conversionOf)
            == done + Walk(current, start, reports, conversionOf)
  {
    var rest := Walk(current - 1, start, reports, conversionOf);
    assert (done + [EntryFor(current, reports, conversionOf)]) + rest == done + ([EntryFor(current, reports, conversionOf)] + rest);
  }

  /** The `i`-th entry of a walk is the entry for the `i`-th day counted back from `current`. */
  lemma {:induction false} WalkAt<C>(current: Day, start: Day, reports: map<Day, ActivityReport>, conversionOf: Day -> C, i: nat)
    requires i < |Walk(current, start, reports, conversionOf)|
    ensures Walk(current, start, reports, conversionOf)[i] == EntryFor(current - i, reports, conversionOf)
    decreases i
  {
    if i > 0 {
      WalkAt(current - 1, start, reports, conversionOf, i - 1);
    }
  }

  /**
   * Entry `i` is for the `i`-th day before the end of the window, inside the
   * window; it carries that day's conversion snapshot, and activity data
   * exactly when that day has a report, copied from it unchanged.
   */
  lemma DailyDataAt<C>(experiment: Experiment, today: Day, reports: map<Day, ActivityReport>, conversionOf: Day -> C, i: nat)
    requires i < |DailyData(experiment, today, reports, conversionOf)|
    ensures experiment.startDate.Some?
    ensures var e, d := DailyData(experiment, today, reports, conversionOf)[i], WindowEnd(experiment, today) - i;
            && e.date == d
            && experiment.startDate.value <= d
            && e.conversionData == conversionOf(d)
            && (e.activityData.Some? <==> d in reports)
            && (d in reports ==>
                  && e.activityData.value.controlGroupSize == reports[d].controlGroupSize
                  && e.activityData.value.controlGroupScore == reports[d].controlScore
                  && e.activityData.value.testGroupSize == reports[d].testGroupSize
                  && e.activityData.value.testGroupScore == reports[d].testScore
                  && e.activityData.value.testGroupImprovement == Improvement(reports[d].controlScore, reports[d].testScore)
                  && e.activityData.value.confidence == reports[d].confidence)
  {
    WalkAt(WindowEnd(experiment, today), experiment.startDate.value, reports, conversionOf, i);
  }

  /**
   * The series starts at the end date (the day before `today` when there is
   * none), ends at the start date, and each date is one day before the
   * previous one.
   */
  lemma DailyDataOrder<C>(experiment: Experiment, today: Day, reports: map<Day, ActivityReport>, conversionOf: Day -> C)
    ensures var r := DailyData(experiment, today, reports, conversionOf);
            && (|r| > 0 ==> r[0].date == (if experiment.endDate.Some? then experiment.endDate.value else today - 1))
            && (|r| > 0 ==> experiment.startDate.Some? && r[|r| - 1].date == experiment.startDate.value)
            && (forall i :: 0 <= i < |r| - 1 ==> r[i + 1].date == r[i].date - 1)
  {
    var r := DailyData(experiment, today, reports, conversionOf);
    if |r| > 0 {
      DailyDataAt(experiment, today, reports, conversionOf, 0);
      DailyDataAt(experiment, today, reports, conversionOf, |r| - 1);
    }
    forall i | 0 <= i < |r| - 1
      ensures r[i + 1].date == r[i].date - 1
    {
      DailyDataAt(experiment, today, reports, conversionOf, i);
      DailyDataAt(experiment, today, reports, conversionOf, i + 1);
    }
  }

  /**
   * Every day of the window has its entry, at its distance from the end; a
   * day without a report still has one, with no activity data and with its
   * conversion snapshot.
   */
  lemma DailyDataCoversWindow<C>(experiment: Experiment, today: Day, reports: map<Day, ActivityReport>, conversionOf: Day -> C, d: Day)
    requires experiment.startDate.Some? && experiment.startDate.value <= d <= WindowEnd(experiment, today)
    ensures var r, i := DailyData(experiment, today, reports, conversionOf), WindowEnd(experiment, today) - d;
            && i < |r|
            && r[i] == EntryFor(d, reports, conversionOf)
            && (d !in reports ==> r[i].date == d && r[i].activityData.None? && r[i].conversionData == conversionOf(d))
  {
    WalkAt(WindowEnd(experiment, today), experiment.startDate.value, reports, conversionOf, WindowEnd(experiment, today) - d);
  }

  /**
   * A missing report affects its own day only: removing the report of day
   * `d` changes no other entry and the length of the series.
   */
  lemma MissingReportIsLocal<C>(experiment: Experiment, today: Day, reports: map<Day, ActivityReport>, conversionOf: Day -> C, d: Day)
    ensures var r, g := DailyData(experiment, today, reports, conversionOf),
                        DailyData(experiment, today, reports - {d}, conversionOf);
            && |g| == |r|
            && forall i :: 0 <= i < |r| && r[i].date != d ==> g[i] == r[i]
  {
    var r := DailyData(experiment, today, reports, conversionOf);
    var g := DailyData(experiment, today, reports - {d}, conversionOf);
    forall i | 0 <= i < |r| && r[i].date != d
      ensures g[i] == r[i]
    {
      DailyDataAt(experiment, today, reports, conversionOf, i);
      DailyDataAt(experiment, today, reports - {d}, conversionOf, i);
      WalkAt(WindowEnd(experiment, today), experiment.startDate.value, reports, conversionOf, i);
      WalkAt(WindowEnd(experiment, today), experiment.startDate.value, reports - {d}, conversionOf, i);
    }
  }

  // ---------------------------------------------------------------------
  // The time series as written: a raised TypeError fails the whole page
  // ---------------------------------------------------------------------

  /** A report on which the improvement expression as written raises. */
  predicate RaisesOn(report: ActivityReport)
  {
    ImprovementAsWritten(report.controlScore, report.testScore).RaisesTypeError?
  }

  /** The entry the view builds for day `d` with the improvement as written, or the error it raises. */
  function EntryAsWritten<C>(d: Day, reports: map<Day, ActivityReport>, conversionOf: Day -> C): Evaluation<DayEntry<C>>
  {
    if d !in reports then Returns(DayEntry(d, conversionOf(d), None))
    else
      var report := reports[d];
      match ImprovementAsWritten(report.controlScore, report.testScore)
      case RaisesTypeError => RaisesTypeError
      case Returns(improvement) =>
        Returns(DayEntry(d, conversionOf(d),
                         Some(ActivityData(report.controlGroupSize, report.controlScore,
                                           report.testGroupSize, report.testScore,
                                           improvement, report.confidence))))
  }

  /** The walk from `current` down to `start` as written: the first day that raises ends it with the error. */
  function WalkAsWritten<C>(current: Day, start: Day, reports: map<Day, ActivityReport>, conversionOf: Day -> C): Evaluation<seq<DayEntry<C>>>
    decreases current - start
  {
    if current < start then Returns([])
    else
      match EntryAsWritten(current, reports, conversionOf)
      case RaisesTypeError => RaisesTypeError
      case Returns(entry) =>
        match WalkAsWritten(current - 1, start, reports, conversionOf)
        case RaisesTypeError => RaisesTypeError
        case Returns(rest) => Returns([entry] + rest)
  }

  /**
   * The walk as written raises exactly when some day it visits has a report
   * on which the improvement raises; otherwise it yields the corrected walk.
   */
  lemma {:induction false} WalkAsWrittenRaises<C>(current: Day, start: Day, reports: map<Day, ActivityReport>, conversionOf: Day -> C)
    ensures WalkAsWritten(current, start, reports, conversionOf).RaisesTypeError? <==>
              exists d :: start <= d <= current && d in reports && RaisesOn(reports[d])
    ensures WalkAsWritten(current, start, reports, conversionOf).Returns? ==>
              WalkAsWritten(current, start, reports, conversionOf).value == Walk(current, start, reports, conversionOf)
    decreases current - start
  {
    if current >= start {
      WalkAsWrittenRaises(current - 1, start, reports, conversionOf);
      if current in reports {
        ImprovementAsWrittenAgrees(reports[current].controlScore, reports[current].testScore);
      }
      if exists d :: start <= d <= current && d in reports && RaisesOn(reports[d]) {
        var d :| start <= d <= current && d in reports && RaisesOn(reports[d]);
        if d != current {
          assert start <= d <= current - 1;
        }
      }
    }
  }

  /**
   * The detail page's `daily_data` as written: it raises exactly when a day
   * of the window has a report with a positive control score and a NULL
   * test score, and is otherwise the corrected series.
   */
  function DailyDataAsWritten<C>(experiment: Experiment, today: Day, reports: map<Day, ActivityReport>, conversionOf: Day -> C): (r: Evaluation<seq<DayEntry<C>>>)
    ensures r.RaisesTypeError? <==>
              experiment.startDate.Some? &&
              exists d :: experiment.startDate.value <= d <= WindowEnd(experiment, today) && d in reports &&
                          reports[d].controlScore.Some? && reports[d].controlScore.value > 0.0 && reports[d].testScore.None?
    ensures r.Returns? ==> r.value == DailyData(experiment, today, reports, conversionOf)
  {
    match experiment.startDate
    case None => Returns([])
    case Some(start) =>
      WalkAsWrittenRaises(WindowEnd(experiment, today), start, reports, conversionOf);
      WalkAsWritten(WindowEnd(experiment, today), start, reports, conversionOf)
  }

  // ---------------------------------------------------------------------
  // The goal-recording beacon
  // ---------------------------------------------------------------------

  /** An HTTP response; its content is always the transparent 1x1 PNG image. */
  datatype Response = Response(status: int, mimetype: string)

  /** What the beacon returns, and the warning it logs, if any. */
  datatype BeaconResult = BeaconResult(response: Response, warning: Option<string>)

  /**
   * Records goal `goalName` for the visitor; `recordError` is the message of
   * the exception that recording raised, if it raised. The response is the
   * same pixel in every case; a raised exception only produces a warning
   * that names the goal and the error.
   */
  function RecordExperimentGoal(goalName: string, recordError: Option<string>): (r: BeaconResult)
    ensures r.response == Response(200, "image/png")
    ensures r.warning.Some? <==> recordError.Some?
    ensures recordError.Some? ==> r.warning.value == "unknown goal type '" + goalName + "': " + recordError.value
  {
    var warning := match recordError
      case None => None
      case Some(e) => Some("unknown goal type '" + goalName + "': " + e);
    BeaconResult(Response(200, "image/png"), warning)
  }

  /** The beacon's response does not depend on the goal name nor on whether recording raised. */
  lemma BeaconResponseIsFixed(goal1: string, error1: Option<string>, goal2: string, error2: Option<string>)
    ensures RecordExperimentGoal(goal1, error1).response == RecordExperimentGoal(goal2, error2).response
  {
  }

  // ---------------------------------------------------------------------
  // The state table
  // ---------------------------------------------------------------------

  /** The names under which the templates show each experiment state. */
  const ExperimentStates: map<string, ExperimentState> :=
    map["enabled" := Enabled, "disabled" := Disabled, "promoted" := Promoted]

  /** The table has exactly three names and names every state exactly once. */
  lemma ExperimentStatesNameEachStateOnce()
    ensures ExperimentStates.Keys == {"enabled", "disabled", "promoted"}
    ensures forall s: ExperimentState :: s in ExperimentStates.Values
    ensures forall n1, n2 :: n1 in ExperimentStates && n2 in ExperimentStates && ExperimentStates[n1] == ExperimentStates[n2] ==> n1 == n2
  {
    forall s: ExperimentState ensures s in ExperimentStates.Values {
      match s
      case Enabled => assert ExperimentStates["enabled"] == s;
      case Disabled => assert ExperimentStates["disabled"] == s;
      case Promoted => assert ExperimentStates["promoted"] == s;
    }
  }
}
