# django-lean experiment views and Mixpanel analytics, in Dafny

This project models two pieces of django-lean, a library for A/B experiments
on Django sites:

- **The experiment views** (`experiments/views.py`, module `ExperimentViews`
  in `experiment_views.dfy`). `experiment_details` builds the time series of
  an experiment's detail page. It walks day by day from the end of the
  experiment's window down to its start date. For each day it merges the
  persisted daily activity report, when one exists, with a freshly computed
  conversion snapshot, and it computes the test group's improvement over
  control. `record_experiment_goal` is the goal-tracking beacon: it returns
  the same transparent 1x1 PNG whatever happens while recording.
  `experiment_states` is the name-to-state table the templates use.
- **The Mixpanel analytics back end** (`experiments/analytics/mixpanel.py`,
  module `MixpanelAnalytics` in `mixpanel.dfy`). A class whose
  `_identify` overwrites the remembered address and identity of the current
  visitor, whose `_properties` builds an event's property dictionary with a
  fixed precedence, and whose `enroll` and `record` hand one event to the
  tracker when the visitor can be identified.

`wrappers.dfy` holds the `Option` type and a dictionary lookup.

Modelling choices:

- A calendar date is an integer day number; `today` is a parameter.
- The persisted activity reports are a `map<Day, ActivityReport>`; a date
  missing from the map is a report that does not exist.
- The conversion snapshot of a date is an opaque function `Day -> C`.
- Scores and confidences are `Option<real>`: the database columns are
  nullable floats, and float rounding is not modelled.
- The `time` property is an opaque string parameter.
- The tracker is the log `events` of the events it was asked to run.
- The identity computation of the analytics base class is the constant
  function `computeId` of the object; `None` stands for an
  `IdentificationError`.
- Python truthiness of the address and identity is `Truthy`: present and
  not the empty string.
- The three experiment states are the constructors of `ExperimentState`.
  Their values live in experiments/models.py, which is not part of this
  model; they are taken to be three distinct constants.

Reports are meaningful only for days up to yesterday, but the view does not
clamp a set end date to yesterday: a future end date yields entries for
future days, each with its conversion snapshot and usually without an
activity report. The model follows the view.

## Model

| member | source | states |
|---|---|---|
| `ExperimentViews.ExperimentDetails` | experiments/views.py:104-144 | The loop's result is the `daily_data` series of `DailyData`, built with the corrected improvement (see Findings). The days it logs a missing-report warning for are `MissingDays`. |
| `ExperimentViews.DailyData` | experiments/views.py:104-113 | Without a start date the series is empty. Otherwise it has one entry per day from the start date to the window end, and none when the start is after the end. |
| `ExperimentViews.Walk` | experiments/views.py:112-144 | Walking from `current` down to `start` emits `current - start + 1` entries, or none when `current < start`. |
| `ExperimentViews.WalkAt` | experiments/views.py:112-144 | The `i`-th entry of the walk is the entry for the day `i` days before the walk's first day. |
| `ExperimentViews.DailyDataAt` | experiments/views.py:113-143 | Entry `i` is dated `i` days before the window end, and never before the start date. It carries the conversion snapshot of its own date. It has activity data exactly when its date has a report. That data copies the report's group sizes, scores and confidence unchanged, with the corrected improvement of its scores. |
| `ExperimentViews.DailyDataOrder` | experiments/views.py:106-144 | The first entry is dated the end date, or the day before today when there is none. The last entry is dated the start date. Each date is one day before the previous one. |
| `ExperimentViews.DailyDataCoversWindow` | experiments/views.py:113-143 | Every day of the window has an entry, at its distance from the window end. A day without a report still has its entry, with no activity data and with its conversion snapshot. |
| `ExperimentViews.UnreportedAre` | experiments/views.py:113-123 | The days the walk from `current` down to `start` warns about are exactly its days without a report, each earlier than the one before. |
| `ExperimentViews.MissingDaysAre` | experiments/views.py:104-123 | A missing-report warning is logged for exactly the days of the window that have no report, latest first, and for none when there is no start date. |
| `ExperimentViews.MissingReportIsLocal` | experiments/views.py:114-143 | Removing one day's report leaves the series' length and every other day's entry unchanged. |
| `ExperimentViews.Improvement` | experiments/views.py:127-132 | The improvement exists exactly when the control score is positive and a test score exists. |
| `ExperimentViews.ImprovementMeaning` | experiments/views.py:129-132 | A defined improvement satisfies test = control * (1 + improvement / 100). It is positive exactly when test beats control, and zero exactly when they are equal. |
| `ExperimentViews.ImprovementAsWritten` | experiments/views.py:129-132 | The expression as written raises `TypeError` exactly when the control score is positive and the test score is NULL. |
| `ExperimentViews.ImprovementAsWrittenAgrees` | experiments/views.py:127-132 | Wherever the expression as written returns, its value is `Improvement`'s. |
| `ExperimentViews.WalkAsWrittenRaises` | experiments/views.py:113-144 | The walk with the improvement as written raises exactly when some day it visits has a report on which the improvement raises. Otherwise it yields the corrected walk. |
| `ExperimentViews.DailyDataAsWritten` | experiments/views.py:104-144 | The page's series as written raises exactly when the experiment has a start date and some day of the window has a report with a positive control score and a NULL test score. Otherwise it is `DailyData`. |
| `ExperimentViews.ImprovementAsWrittenRaises` | experiments/views.py:129-132 | Control score 1.0 with a NULL test score raises as written; the corrected improvement is absent. |
| `ExperimentViews.RecordExperimentGoal` | experiments/views.py:41-47 | The response is always status 200 with type `image/png`. A warning naming the goal and the error is logged exactly when recording raised. |
| `ExperimentViews.BeaconResponseIsFixed` | experiments/views.py:41-47 | Any two goal names and recording outcomes give the same response. |
| `ExperimentViews.ExperimentStatesNameEachStateOnce` | experiments/views.py:17-19 | The table's names are exactly `enabled`, `disabled` and `promoted`. Every state has one of them, and no two names share a state. |
| `MixpanelAnalytics.PropertiesOf` | experiments/analytics/mixpanel.py:36-44 | The result always has `time`, and it holds `now` unless the caller supplied `time`. Every caller key appears with the caller's value. `ip` and `distinct_id` are added from the address and identity exactly when the caller did not supply them and the field is truthy. The keys are exactly `time`, the caller's keys and those added keys. |
| `MixpanelAnalytics.Mixpanel.Properties` | experiments/analytics/mixpanel.py:36-44 | The dictionary built by the loop over the two computed keys, then updated with the caller's keys, is `PropertiesOf` of the current address and identity. |
| `MixpanelAnalytics.Mixpanel.Identify` | experiments/analytics/mixpanel.py:20-34 | Identification succeeds exactly when an identity can be computed. Afterwards the identity is the computed one, or `None` on failure. The address is the request's `REMOTE_ADDR`, `None` when it is missing or the request has no `META`. Nothing from the previous visitor survives. |
| `MixpanelAnalytics.Mixpanel.Enroll` | experiments/analytics/mixpanel.py:46-53 | When the user is identified, exactly one "Enrolled In Experiment" event is appended, carrying the experiment and group over the identified visitor's address and identity. Otherwise the event log is unchanged. |
| `MixpanelAnalytics.Mixpanel.Record` | experiments/analytics/mixpanel.py:55-61 | When the user is identified, exactly one "Goal Recorded" event is appended, carrying the goal type over the identified visitor's address and identity. Otherwise the event log is unchanged. |
| `MixpanelAnalytics.Mixpanel.constructor` | experiments/analytics/mixpanel.py:13-18 | A new back end has no address, no identity and an empty event log. |

## Findings

| source | as written | input that shows it | evidently intended | confidence | as-written member | corrected member |
|---|---|---|---|---|---|---|
| experiments/views.py:129-132 | The guard tests only the control score, then subtracts the control score from the test score. In Python 2 a NULL test score makes this raise `TypeError`, so the whole detail page fails. | An activity report with `control_score = 1.0` and `test_score = NULL`; both columns are nullable (lemma `ExperimentViews.ImprovementAsWrittenRaises` for the expression `ExperimentViews.ImprovementAsWritten`) | An improvement that is absent when either score is missing, like every other undefined statistic on the page | medium, not executed | `ExperimentViews.DailyDataAsWritten` | `ExperimentViews.DailyData` |

## Left out

- `list_experiments`, `confirm_human`, the `staff_member_required` and `never_cache` decorators, `render_to_response` and `get_object_or_404`: these are page rendering and access control. `ExperimentDetails` receives the experiment itself.
- `GoalRecord.record` is not part of this model. `RecordExperimentGoal` receives the message of the exception it raised, if it raised, and the goal records it writes are not modelled.
- `get_conversion_data` (experiments/reports.py) is not part of this model. It is the opaque function `conversionOf`.
- The `DailyActivityReport` lookup is a map lookup. A lookup that finds several reports also falls into the warning branch in the source; a map cannot hold two reports for one day.
- ExperimentDetails: builds the series with the corrected `Improvement`. On a window holding a report with a positive control score and a NULL test score the view as written raises `TypeError` and yields no `daily_data`; that behaviour is `DailyDataAsWritten`, not this method.
- The literal bytes of the transparent PNG are left out. `Response` records the status and the content type.
- Python's date range (years 1 to 9999) is not modelled: days are unbounded integers. With a start date of `date.min` the view raises `OverflowError` when it steps below it after the last entry; the model has no such error.
- Float rounding and overflow in the improvement computation: scores are reals.
- `EventTracker.run` delivery over the network is left out. An event handed to the tracker is appended to `events`. A tracker passed to the constructor is not modelled: every back end starts with an empty log.
- `time.mktime(time.gmtime())` is the string parameter `now`.
- `BaseAnalytics._compute_id` is not part of this model. It is the function `computeId`. Its exceptions other than `IdentificationError` are not modelled.
- `Participant.GROUPS` is not part of this model. `Enroll` receives the group's label; `unicode(experiment)` and `unicode(goal_type)` are the name strings `experiment` and `goalType`.
- The schema migration and the test-discovery module of the repository hold no behaviour of this core.
- Group assignment, goal recording and the confidence calculation live in experiments/models.py, experiments/reports.py and experiments/util.py, which are not part of this model.
