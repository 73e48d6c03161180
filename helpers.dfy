/**
 * The helper functions of the generator. Each takes the values of its inputs
 * plus the value its random call returned; a requires clause places that
 * value in the support of the call the helper makes.
 */
module Helpers {
  import opened RandomSource
  import opened Catalog

  const MINUTES_PER_HOUR: int := 60
  const MINUTES_PER_DAY: int := 24 * MINUTES_PER_HOUR

  // ---------------------------------------------------------------------
  // generate_age: a weighted choice over list(range(0, 95))
  // ---------------------------------------------------------------------

  /** The population the age is chosen from. Every weight is positive, so
      each age of the population is possible. */
  const AGE_POPULATION: HalfOpen := HalfOpen(0, 95)

  function GenerateAge(drawn: int): (age: int)
    requires AGE_POPULATION.Contains(drawn)
    ensures 0 <= age <= 94
  {
    drawn
  }

  // ---------------------------------------------------------------------
  // rand_time: random.randint(7, 20) hours and random.randint(0, 59) minutes
  // ---------------------------------------------------------------------

  const HOUR_DRAW: Closed := Closed(7, 20)
  const MINUTE_DRAW: Closed := Closed(0, 59)

  /** The time-of-day offset in minutes after midnight. */
  function RandTime(hour: int, minute: int): (offset: int)
    requires HOUR_DRAW.Contains(hour) && MINUTE_DRAW.Contains(minute)
    ensures 7 * MINUTES_PER_HOUR <= offset <= 20 * MINUTES_PER_HOUR + 59
    ensures offset / MINUTES_PER_HOUR == hour && offset % MINUTES_PER_HOUR == minute
  {
    hour * MINUTES_PER_HOUR + minute
  }

  /** Every minute from 07:00 to 20:59 is an offset RandTime produces. */
  lemma RandTimeReachesEveryMinute(offset: int)
    requires 7 * MINUTES_PER_HOUR <= offset <= 20 * MINUTES_PER_HOUR + 59
    ensures HOUR_DRAW.Contains(offset / MINUTES_PER_HOUR)
    ensures MINUTE_DRAW.Contains(offset % MINUTES_PER_HOUR)
    ensures RandTime(offset / MINUTES_PER_HOUR, offset % MINUTES_PER_HOUR) == offset
  {
  }

  // ---------------------------------------------------------------------
  // simulate_wait_time
  // ---------------------------------------------------------------------

  /** The arguments simulate_wait_time passes to np.random.randint. */
  function WaitRange(triage: Triage): HalfOpen {
    if triage == Critical then HalfOpen(1, 5)
    else if triage == High then HalfOpen(5, 15)
    else if triage == Medium then HalfOpen(10, 40)
    else HalfOpen(20, 120)
  }

  function SimulateWaitTime(triage: Triage, drawn: int): (wait: int)
    requires WaitRange(triage).Contains(drawn)
    ensures triage == Critical ==> 1 <= wait < 5
    ensures triage == High ==> 5 <= wait < 15
    ensures triage == Medium ==> 10 <= wait < 40
    ensures triage == Low ==> 20 <= wait < 120
  {
    drawn
  }

  // ---------------------------------------------------------------------
  // simulate_consultation_time
  // ---------------------------------------------------------------------

  /** The arguments simulate_consultation_time passes to np.random.randint;
      the brackets are tested in order, so the first that holds applies. */
  function ConsultationRange(age: int): HalfOpen {
    if age < 5 then HalfOpen(8, 20)
    else if age < 18 then HalfOpen(6, 15)
    else if age < 55 then HalfOpen(6, 18)
    else HalfOpen(12, 25)
  }

  /** The four brackets are disjoint intervals of age that cover every age,
      so exactly one range applies to each patient. */
  function SimulateConsultationTime(age: int, drawn: int): (minutes: int)
    requires ConsultationRange(age).Contains(drawn)
    ensures age < 5 ==> 8 <= minutes < 20
    ensures 5 <= age < 18 ==> 6 <= minutes < 15
    ensures 18 <= age < 55 ==> 6 <= minutes < 18
    ensures 55 <= age ==> 12 <= minutes < 25
  {
    drawn
  }

  // ---------------------------------------------------------------------
  // simulate_lab_turnaround and the sum over the selected tests
  // ---------------------------------------------------------------------

  /** The table of simulate_lab_turnaround. It has an entry for every test
      of the catalogue, so the lookup cannot fail. */
  function LabRange(test: LabTest): HalfOpen {
    match test
    case CBC => HalfOpen(30, 90)
    case MalariaRDT => HalfOpen(10, 20)
    case BloodGlucose => HalfOpen(5, 15)
    case Urinalysis => HalfOpen(20, 40)
    case ChestXray => HalfOpen(25, 60)
    case CovidPCR => HalfOpen(180, 480)
  }

  function SimulateLabTurnaround(test: LabTest, drawn: int): (minutes: int)
    requires LabRange(test).Contains(drawn)
    ensures test == CBC ==> 30 <= minutes < 90
    ensures test == MalariaRDT ==> 10 <= minutes < 20
    ensures test == BloodGlucose ==> 5 <= minutes < 15
    ensures test == Urinalysis ==> 20 <= minutes < 40
    ensures test == ChestXray ==> 25 <= minutes < 60
    ensures test == CovidPCR ==> 180 <= minutes < 480
  {
    drawn
  }

  /** One turnaround draw per selected test, each in that test's range. */
  predicate LabDrawsFit(tests: seq<LabTest>, drawn: seq<int>) {
    |drawn| == |tests| && forall i :: 0 <= i < |tests| ==> LabRange(tests[i]).Contains(drawn[i])
  }

  /** The sum of the lower ends of the tests' ranges; no test is faster than
      five minutes. */
  function LabLowSum(tests: seq<LabTest>): (sum: int)
    ensures sum >= 5 * |tests|
  {
    if tests == [] then 0 else LabRange(tests[0]).lo + LabLowSum(tests[1..])
  }

  /** The sum of the (excluded) upper ends of the tests' ranges; every range
      holds at least one value, so it exceeds the lower sum by at least one
      per test. */
  function LabHighSum(tests: seq<LabTest>): (sum: int)
    ensures sum >= LabLowSum(tests) + |tests|
  {
    if tests == [] then 0 else LabRange(tests[0]).hi + LabHighSum(tests[1..])
  }

  /** sum(simulate_lab_turnaround(t) for t in tests): at least the sum of the
      lower ends, and at most the sum of the upper ends less one per test. */
  function LabTurnaround(tests: seq<LabTest>, drawn: seq<int>): (total: int)
    requires LabDrawsFit(tests, drawn)
    ensures LabLowSum(tests) <= total <= LabHighSum(tests) - |tests|
  {
    if tests == [] then 0
    else
      assert LabDrawsFit(tests[1..], drawn[1..]) by {
        forall i | 0 <= i < |tests[1..]|
          ensures LabRange(tests[1..][i]).Contains(drawn[1..][i])
        {
          assert tests[1..][i] == tests[i + 1] && drawn[1..][i] == drawn[i + 1];
        }
      }
      SimulateLabTurnaround(tests[0], drawn[0]) + LabTurnaround(tests[1..], drawn[1..])
  }

  /** Draws fit a non-empty list of tests when the first fits the first
      test and the others fit the others. */
  lemma LabDrawsFitCons(tests: seq<LabTest>, drawn: seq<int>)
    requires |tests| > 0 && |drawn| == |tests|
    requires LabRange(tests[0]).Contains(drawn[0]) && LabDrawsFit(tests[1..], drawn[1..])
    ensures LabDrawsFit(tests, drawn)
  {
    forall i | 1 <= i < |tests|
      ensures LabRange(tests[i]).Contains(drawn[i])
    {
      assert tests[i] == tests[1..][i - 1] && drawn[i] == drawn[1..][i - 1];
    }
  }

  /** Conversely every total within those bounds is reached by some draws,
      so the bounds are exactly the support of the summed turnaround. */
  lemma {:induction false} LabTurnaroundReachesEveryTotal(tests: seq<LabTest>, total: int)
    requires LabLowSum(tests) <= total <= LabHighSum(tests) - |tests|
    ensures exists drawn :: LabDrawsFit(tests, drawn) && LabTurnaround(tests, drawn) == total
  {
    if tests == [] {
      assert LabDrawsFit(tests, []) && LabTurnaround(tests, []) == total;
    } else {
      var rest := tests[1..];
      var first := LabRange(tests[0]);
      var restHigh := LabHighSum(rest) - |rest|;
      assert LabLowSum(tests) == first.lo + LabLowSum(rest);
      assert LabHighSum(tests) == first.hi + LabHighSum(rest);
      var x := if total - restHigh > first.lo then total - restHigh else first.lo;
      LabTurnaroundReachesEveryTotal(rest, total - x);
      var tail :| LabDrawsFit(rest, tail) && LabTurnaround(rest, tail) == total - x;
      assert first.Contains(x);
      var drawn := [x] + tail;
      LabDrawsFitCons(tests, drawn);
      assert LabTurnaround(tests, drawn) == x + LabTurnaround(rest, tail);
    }
  }

  // ---------------------------------------------------------------------
  // route_patient
  // ---------------------------------------------------------------------

  /** The list random.choice picks from for a High-triage patient of 12 or over. */
  const HIGH_TRIAGE_CHOICES: seq<Department> := [Emergency, Surgery]

  /** The routing rules: Critical goes to Emergency whatever the age; any
      other triage under 12 goes to Pediatrics; High from 12 on goes to
      Emergency or Surgery; Low or Medium over 60 goes to OPD. Low or Medium
      from 12 to 60 may go to any department. */
  predicate RoutingConsistent(triage: Triage, age: int, department: Department) {
    && (triage == Critical ==> department == Emergency)
    && (triage != Critical && age < 12 ==> department == Pediatrics)
    && (triage == High && age >= 12 ==> department == Emergency || department == Surgery)
    && ((triage == Low || triage == Medium) && age > 60 ==> department == OPD)
  }

  /** highPick is the value random.choice(["Emergency", "Surgery"]) returns,
      anyPick the value random.choice(DEPARTMENTS) returns; the branch taken
      decides which of the two, if any, is used. */
  function RoutePatient(triage: Triage, age: int, highPick: Department, anyPick: Department): (department: Department)
    requires highPick in HIGH_TRIAGE_CHOICES
    ensures RoutingConsistent(triage, age, department)
    ensures department in DEPARTMENTS
  {
    assert forall d: Department :: d in DEPARTMENTS by { CataloguesListEveryValueOnce(); }
    if triage == Critical then Emergency
    else if age < 12 then Pediatrics
    else if triage == High then highPick
    else if age > 60 then OPD
    else anyPick
  }

  /** A department satisfies the routing rules exactly when some pair of
      choices makes route_patient return it. */
  lemma RoutingConsistentIsReachable(triage: Triage, age: int, department: Department)
    ensures RoutingConsistent(triage, age, department) <==>
            exists highPick, anyPick :: highPick in HIGH_TRIAGE_CHOICES && RoutePatient(triage, age, highPick, anyPick) == department
  {
    if RoutingConsistent(triage, age, department) {
      var highPick := if department == Surgery then Surgery else Emergency;
      assert highPick in HIGH_TRIAGE_CHOICES;
      assert RoutePatient(triage, age, highPick, department) == department;
    }
  }

  // ---------------------------------------------------------------------
  // The risk-score band of each triage level
  // ---------------------------------------------------------------------

  /** The np.random.uniform interval of each triage, in thousandths. After
      rounding to three decimals a score can reach either end, so each band
      is closed. */
  function RiskBand(triage: Triage): Closed {
    match triage
    case Low => Closed(0, 300)
    case Medium => Closed(300, 600)
    case High => Closed(600, 850)
    case Critical => Closed(850, 1000)
  }

  /** round(np.random.uniform(lo, hi), 3) for the triage's band, in
      thousandths: drawn is the rounded score. */
  function RiskScore(triage: Triage, drawn: int): (score: int)
    requires RiskBand(triage).Contains(drawn)
    ensures 0 <= score <= 1000
    ensures triage == Low ==> score <= 300
    ensures triage == Medium ==> 300 <= score <= 600
    ensures triage == High ==> 600 <= score <= 850
    ensures triage == Critical ==> 850 <= score
  {
    drawn
  }

  /** In triage order the bands are contiguous and together span [0, 1]:
      each starts where the previous one ends. Neighbouring bands therefore
      share their common end point, and no other score. */
  lemma RiskBandsTileUnitInterval()
    ensures RiskBand(Low).lo == 0 && RiskBand(Critical).hi == 1000
    ensures RiskBand(Low).hi == RiskBand(Medium).lo
    ensures RiskBand(Medium).hi == RiskBand(High).lo
    ensures RiskBand(High).hi == RiskBand(Critical).lo
    ensures forall t: Triage :: RiskBand(t).lo < RiskBand(t).hi
    ensures forall s :: 0 <= s <= 1000 ==>
              RiskBand(Low).Contains(s) || RiskBand(Medium).Contains(s) ||
              RiskBand(High).Contains(s) || RiskBand(Critical).Contains(s)
  {
  }
}
