# Health monitor: vitals severity classifier

This project models the one piece of logic in the health-monitoring dashboard:
the classifier that turns a reading of six vital signs into a severity, and the
dashboard's decision to call its alert e-mail sender.

A reading (`HealthMonitor.Vitals`) holds these six values:

- heart rate
- systolic and diastolic blood pressure
- temperature
- glucose
- SpO2

Five independent checks (`HealthMonitor.Check`, decided by `HealthMonitor.Fires`) are made against it:

- heart rate below 60 or above 120
- systolic above 140 or diastolic above 90
- temperature above 38.5
- glucose above 180
- SpO2 below 92

Every check that fires adds one to an issue count (`IssueCount`). A count of 0 is
`Normal`, 1 or 2 is `Warning`, and 3 or more is `Critical` (`SeverityOf`,
`Classify`). The dashboard shows the severity as one of three text labels
(`EvaluateStatus`). The decision at lines 125-126 to call `send_email` is taken
exactly when that label is `"Critical"` (`AlertDispatched`).

All of it is pure, so it is modelled with datatypes, functions and lemmas in one
module, `HealthMonitor`, in `health_monitor.dfy`. The local `issues`
accumulator of `evaluate_status` is a sum of five 0/1 indicators, written as one expression. The
independent reference it is proved against is `Flags(v)`, the set of checks that
fire. `Gathered` rebuilds that set one check at a time, in the order the
accumulator visits the checks. `IssueCountIsFlagCount` then proves that the count
equals the size of the set. The contracts of `Classify` and `EvaluateStatus` are
stated over `Fires` and `Flags`, not over the count.

The thresholds are the constants written in `evaluate_status`. They are named
constants in the model, not configuration parameters.

## Model

| member | source | states |
|---|---|---|
| HealthMonitor.Fires | health_monitor.py:70-78 | each check fires exactly when its value lies outside the inclusive normal range, i.e. only strictly past a threshold, so the threshold value itself is normal |
| HealthMonitor.IssueCount | health_monitor.py:69-79 | the issue count never exceeds five, the number of checks |
| HealthMonitor.Gathered | health_monitor.py:69-79 | adding one check at a time when it fires, in the counter's order, gives a set whose size is the issue count |
| HealthMonitor.GatheredIsFlags | health_monitor.py:69-79 | the set built check by check is exactly the set of checks that fire |
| HealthMonitor.IssueCountIsFlagCount | health_monitor.py:69-79 | the issue count is the number of distinct checks that fire |
| HealthMonitor.SeverityOf | health_monitor.py:81-86 | count 0 gives Normal, 1 to 2 gives Warning, 3 or more gives Critical, each as an if-and-only-if |
| HealthMonitor.Classify | health_monitor.py:68-86 | Normal iff no check fires; Warning iff one or two checks fire; Critical iff three or more fire |
| HealthMonitor.EvaluateStatus | health_monitor.py:68-86 | the result is always one of the labels "Normal", "Warning" and "Critical", and each label is returned exactly when the matching number of checks fires |
| HealthMonitor.Label | health_monitor.py:81-86 | the three severities are reported as "Normal", "Warning" and "Critical", each label belonging to exactly one severity |
| HealthMonitor.AlertDispatched | health_monitor.py:125 | the label test at line 125: true exactly for the label of Critical |
| HealthMonitor.AlertIffCritical | health_monitor.py:125-126 | the decision to call `send_email` is taken iff the reading is Critical, i.e. iff three or more checks fire; Normal and Warning never lead to it |
| HealthMonitor.SeverityOfMonotonic | health_monitor.py:81-86 | a larger issue count never maps to a lower severity (Normal < Warning < Critical) |
| HealthMonitor.Monotonic | health_monitor.py:69-86 | if every check that fires for reading a also fires for reading b, then b is at least as severe as a |
| HealthMonitor.BloodPressureCountsOnce | health_monitor.py:72-73 | with both pressures elevated, blood pressure still adds only one issue, the same as with either one elevated alone |
| HealthMonitor.BoundariesInclusiveOnNormalSide | health_monitor.py:70-78 | these values are not flagged: heart rate 60 and 120, 140/90 mmHg, temperature 38.5, glucose 180, SpO2 92; one step beyond each is flagged |
| HealthMonitor.ExampleReadings | health_monitor.py:70-86 | (75, 120/80, 37.0, 100, 98) is Normal; (150, 180/100, 39.5, 250, 88) has all five issues and is Critical; heart rate 50 with otherwise normal values is Warning |

## Left out

- `send_email` (health_monitor.py:15-50): SMTP over SSL, the secrets lookup and the success and error messages are network I/O and library calls. Only the decision to call it is modelled (`AlertDispatched`).
- `send_email` catches every exception and only shows an error message (health_monitor.py:49-50), so a Critical reading may produce no e-mail at all. Delivery is not modelled.
- `generate_sample_data` (health_monitor.py:55-63): random readings and float rounding. The model classifies any reading, so it needs no generator.
- The page flow (health_monitor.py:91-134) is not modelled. This covers the user form, the buttons, the tables and the session log of records.
- The page stops at line 103 when `not submitted or not user_email` holds (health_monitor.py:101-103), before the alert branch. Whether the alert branch inside the "Generate Health Data" button (health_monitor.py:110) is reached at all depends on Streamlit's rerun semantics for buttons and form submissions, which are not modelled.
- The timestamp taken from the clock (health_monitor.py:113) and the CSV export (health_monitor.py:131-134) are I/O and are not modelled.
- Temperature is an exact `real`, not an IEEE-754 double. Readings carry one decimal place, so the comparison with 38.5 gives the same answer either way.
- Every other value is an unbounded `int`, and a reading always has all six fields. A dictionary lookup of a missing key in `evaluate_status` is not modelled.
- Calling the classifier twice on one reading gives the same result. This holds because Dafny functions are deterministic, so no lemma states it.
- Thresholds are fixed constants, as in `evaluate_status`. They are not configurable per deployment.
