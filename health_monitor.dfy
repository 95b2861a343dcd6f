/**
  The vitals severity classifier of the health-monitoring dashboard.

  A reading of six vital signs is checked against five independent
  thresholds; every check that fires adds one to an issue count, and the
  count is mapped onto the three severities Normal, Warning and Critical.
  The dashboard decides to call its e-mail sender exactly when the
  severity label is "Critical".
 */
module HealthMonitor {

  /** One reading of the six vital signs.
      The temperature is an exact decimal: readings carry one decimal place,
      so the comparison with 38.5 is exact. */
  datatype Vitals = Vitals(
    heartRate: int,     // beats per minute
    systolic: int,      // mmHg
    diastolic: int,     // mmHg
    temperature: real,  // degrees Celsius
    glucose: int,       // mg/dL
    spO2: int           // percent
  )

  /** The three severities the classifier can report. */
  datatype Status = Normal | Warning | Critical {
    /** Position in the severity order Normal < Warning < Critical. */
    function Rank(): nat {
      match this
      case Normal => 0
      case Warning => 1
      case Critical => 2
    }
  }

  /** The five checks, one per vital-sign group. */
  datatype Check = HeartRateOutOfRange | BloodPressureHigh | Fever | Hyperglycemia | Hypoxemia

  const AllChecks: set<Check> := {HeartRateOutOfRange, BloodPressureHigh, Fever, Hyperglycemia, Hypoxemia}

  // Thresholds. Each comparison is strict, so the threshold itself is normal.
  const HeartRateLow: int := 60
  const HeartRateHigh: int := 120
  const SystolicHigh: int := 140
  const DiastolicHigh: int := 90
  const FeverAbove: real := 38.5
  const GlucoseHigh: int := 180
  const SpO2Low: int := 92

  /** The inclusive normal range of each check: the thresholds themselves are normal. */
  predicate InNormalRange(c: Check, v: Vitals) {
    match c
    case HeartRateOutOfRange => HeartRateLow <= v.heartRate <= HeartRateHigh
    case BloodPressureHigh => v.systolic <= SystolicHigh && v.diastolic <= DiastolicHigh
    case Fever => v.temperature <= FeverAbove
    case Hyperglycemia => v.glucose <= GlucoseHigh
    case Hypoxemia => SpO2Low <= v.spO2
  }

  /** Whether check `c` fires for reading `v`: only strictly past a threshold. */
  predicate Fires(c: Check, v: Vitals)
    ensures Fires(c, v) <==> !InNormalRange(c, v)
  {
    match c
    case HeartRateOutOfRange => v.heartRate < HeartRateLow || v.heartRate > HeartRateHigh
    case BloodPressureHigh => v.systolic > SystolicHigh || v.diastolic > DiastolicHigh
    case Fever => v.temperature > FeverAbove
    case Hyperglycemia => v.glucose > GlucoseHigh
    case Hypoxemia => v.spO2 < SpO2Low
  }

  /** The set of checks that fire for `v`: the reference the issue count is measured against. */
  function Flags(v: Vitals): (f: set<Check>)
    ensures f <= AllChecks
    ensures forall c :: c in f <==> Fires(c, v)
  {
    set c | c in AllChecks && Fires(c, v)
  }

  function Indicator(b: bool): nat {
    if b then 1 else 0
  }

  /** The issue accumulator of `evaluate_status`: one unit per check that
      fires, in the order the dashboard tests them. */
  function IssueCount(v: Vitals): (n: nat)
    ensures n <= 5
  {
    Indicator(Fires(HeartRateOutOfRange, v))
    + Indicator(Fires(BloodPressureHigh, v))
    + Indicator(Fires(Fever, v))
    + Indicator(Fires(Hyperglycemia, v))
    + Indicator(Fires(Hypoxemia, v))
  }

  /** The checks of `s`, together with `c` when `c` fires for `v`. */
  function AddIfFires(s: set<Check>, c: Check, v: Vitals): (t: set<Check>)
    requires c !in s
    ensures forall x :: x in t <==> x in s || (x == c && Fires(c, v))
    ensures |t| == |s| + Indicator(Fires(c, v))
  {
    if Fires(c, v) then s + {c} else s
  }

  /** The checks that fire for `v`, gathered one check at a time in the order
      the issue counter visits them. */
  function Gathered(v: Vitals): (g: set<Check>)
    ensures |g| == IssueCount(v)
  {
    var s1 := AddIfFires({}, HeartRateOutOfRange, v);
    var s2 := AddIfFires(s1, BloodPressureHigh, v);
    var s3 := AddIfFires(s2, Fever, v);
    var s4 := AddIfFires(s3, Hyperglycemia, v);
    AddIfFires(s4, Hypoxemia, v)
  }

  /** Gathering the checks one at a time finds exactly the checks that fire. */
  lemma GatheredIsFlags(v: Vitals)
    ensures Gathered(v) == Flags(v)
  {
  }

  /** The issue count is the number of checks that fire. */
  lemma IssueCountIsFlagCount(v: Vitals)
    ensures IssueCount(v) == |Flags(v)|
  {
    GatheredIsFlags(v);
  }

  /** The mapping of an issue count onto a severity. */
  function SeverityOf(n: nat): (s: Status)
    ensures s == Normal <==> n == 0
    ensures s == Warning <==> 1 <= n <= 2
    ensures s == Critical <==> n >= 3
  {
    if n == 0 then Normal
    else if n <= 2 then Warning
    else Critical
  }

  /** The classifier: Normal when no check fires, Warning when one or two
      fire, Critical when three or more fire. */
  function Classify(v: Vitals): (s: Status)
    ensures s == Normal <==> forall c :: !Fires(c, v)
    ensures s == Warning <==> 1 <= |Flags(v)| <= 2
    ensures s == Critical <==> |Flags(v)| >= 3
  {
    IssueCountIsFlagCount(v);
    SeverityOf(IssueCount(v))
  }

  /** The text label a severity is reported under; distinct severities get distinct labels. */
  function Label(s: Status): (shown: string)
    ensures shown == "Normal" <==> s == Normal
    ensures shown == "Warning" <==> s == Warning
    ensures shown == "Critical" <==> s == Critical
  {
    match s
    case Normal => "Normal"
    case Warning => "Warning"
    case Critical => "Critical"
  }

  /** The classifier as the dashboard sees it: the severity as one of three labels. */
  function EvaluateStatus(v: Vitals): (shown: string)
    ensures shown == "Normal" || shown == "Warning" || shown == "Critical"
    ensures shown == "Normal" <==> forall c :: !Fires(c, v)
    ensures shown == "Warning" <==> 1 <= |Flags(v)| <= 2
    ensures shown == "Critical" <==> |Flags(v)| >= 3
  {
    Label(Classify(v))
  }

  /** The dashboard's decision to call its e-mail sender for a reported label:
      the label test against the label of Critical. */
  predicate AlertDispatched(shown: string)
    ensures AlertDispatched(shown) <==> shown == Label(Critical)
  {
    shown == "Critical"
  }

  /** The decision to call the e-mail sender is taken exactly for Critical
      readings, that is, when three or more checks fire; Normal and Warning
      readings never lead to it. Whether the e-mail is then delivered is
      outside this model. */
  lemma AlertIffCritical(v: Vitals)
    ensures AlertDispatched(EvaluateStatus(v)) <==> Classify(v) == Critical
    ensures AlertDispatched(EvaluateStatus(v)) <==> |Flags(v)| >= 3
  {
  }

  /** A larger issue count never gives a lower severity. */
  lemma SeverityOfMonotonic(m: nat, n: nat)
    requires m <= n
    ensures SeverityOf(m).Rank() <= SeverityOf(n).Rank()
  {
  }

  /** Monotonicity: if every check that fires for `a` also fires for `b`,
      then `b` is at least as severe as `a`. */
  lemma Monotonic(a: Vitals, b: Vitals)
    requires forall c :: Fires(c, a) ==> Fires(c, b)
    ensures Classify(a).Rank() <= Classify(b).Rank()
  {
    IssueCountIsFlagCount(a);
    IssueCountIsFlagCount(b);
    SeverityOfMonotonic(IssueCount(a), IssueCount(b));
  }

  /** Blood pressure is one check: a reading with both pressures elevated
      counts the same as one with only one of them elevated. */
  lemma BloodPressureCountsOnce(v: Vitals)
    requires v.systolic > SystolicHigh && v.diastolic > DiastolicHigh
    ensures IssueCount(v) == IssueCount(v.(diastolic := DiastolicHigh))
    ensures IssueCount(v) == IssueCount(v.(systolic := SystolicHigh))
    ensures IssueCount(v) == IssueCount(v.(systolic := SystolicHigh, diastolic := DiastolicHigh)) + 1
  {
  }

  /** The thresholds themselves are normal; one step beyond them is flagged. */
  lemma BoundariesInclusiveOnNormalSide(v: Vitals)
    ensures v.heartRate == 60 || v.heartRate == 120 ==> !Fires(HeartRateOutOfRange, v)
    ensures v.heartRate == 59 || v.heartRate == 121 ==> Fires(HeartRateOutOfRange, v)
    ensures v.systolic == 140 && v.diastolic == 90 ==> !Fires(BloodPressureHigh, v)
    ensures v.systolic == 141 || v.diastolic == 91 ==> Fires(BloodPressureHigh, v)
    ensures v.temperature == 38.5 ==> !Fires(Fever, v)
    ensures v.temperature == 38.6 ==> Fires(Fever, v)
    ensures v.glucose == 180 ==> !Fires(Hyperglycemia, v)
    ensures v.glucose == 181 ==> Fires(Hyperglycemia, v)
    ensures v.spO2 == 92 ==> !Fires(Hypoxemia, v)
    ensures v.spO2 == 91 ==> Fires(Hypoxemia, v)
  {
  }

  /** Three readings and their severities. */
  lemma ExampleReadings()
    ensures Classify(Vitals(75, 120, 80, 37.0, 100, 98)) == Normal
    ensures Classify(Vitals(150, 180, 100, 39.5, 250, 88)) == Critical
    ensures IssueCount(Vitals(150, 180, 100, 39.5, 250, 88)) == 5
    ensures Classify(Vitals(50, 120, 80, 37.0, 100, 98)) == Warning
    ensures EvaluateStatus(Vitals(150, 180, 100, 39.5, 250, 88)) == "Critical"
  {
  }
}
