/**
 * simulate_dataset: one visit record per loop iteration. Dates and times are
 * whole minutes counted from 2024-01-01 00:00, the start of the window, and a
 * visit date is the number of days after 2024-01-01.
 */
module Simulation {
  import opened RandomSource
  import opened Catalog
  import opened Helpers

  /** np.random.randint(0, 365): the visit date's day offset. */
  const DAY_OFFSET_DRAW: HalfOpen := HalfOpen(0, 365)

  /** random.randint(1, 3): how many lab tests are ordered. */
  const TEST_COUNT_DRAW: Closed := Closed(1, 3)

  /** Length of str(uuid.uuid4()): 32 hex digits and four hyphens. */
  const UUID_STRING_LENGTH: nat := 36

  /** Length of the identifier prefix kept from the uuid string. */
  const PATIENT_ID_LENGTH: nat := 8

  /** str(uuid.uuid4())[:8]: Python slicing keeps the whole string when it is
      shorter than eight characters. */
  function PatientId(token: string): (id: string)
    ensures |id| == if |token| < PATIENT_ID_LENGTH then |token| else PATIENT_ID_LENGTH
    ensures id <= token
  {
    if |token| <= PATIENT_ID_LENGTH then token else token[..PATIENT_ID_LENGTH]
  }

  /** datetime.combine(visit_date, midnight) + the time-of-day offset. The
      arrival determines both the date and the time of day it was built from. */
  function ArrivalMinute(visitDate: int, timeOfDay: int): (arrival: int)
    requires DAY_OFFSET_DRAW.Contains(visitDate) && 0 <= timeOfDay < MINUTES_PER_DAY
    ensures arrival / MINUTES_PER_DAY == visitDate && arrival % MINUTES_PER_DAY == timeOfDay
  {
    visitDate * MINUTES_PER_DAY + timeOfDay
  }

  /** The draws one loop iteration uses: one input per result the record
      depends on. route_patient makes at most one of its two choices, so the
      branch taken reads highPick, anyPick or neither; of the four uniform
      draws of the risk dictionary only the triage's one is kept. */
  datatype VisitDraws = VisitDraws(
    token: string,            // str(uuid.uuid4())
    dayOffset: int,           // np.random.randint(0, 365)
    hour: int,                // random.randint(7, 20)
    minute: int,              // random.randint(0, 59)
    ageDraw: int,             // np.random.choice(list(range(0, 95)), p=...)
    sex: Sex,                 // np.random.choice(SEX)
    triage: Triage,           // np.random.choice(TRIAGE, p=TRIAGE_PROB)
    wait: int,                // np.random.randint in simulate_wait_time
    consultation: int,        // np.random.randint in simulate_consultation_time
    testCount: int,           // random.randint(1, 3)
    samplePicks: seq<nat>,    // the index draws of random.sample(LAB_TESTS, testCount)
    labDraws: seq<int>,       // np.random.randint in simulate_lab_turnaround, per test
    highPick: Department,     // random.choice(["Emergency", "Surgery"])
    anyPick: Department,      // random.choice(DEPARTMENTS)
    diagnosis: Diagnosis,     // random.choice(DIAGNOSES)
    outcome: Outcome,         // np.random.choice(OUTCOMES, p=OUTCOME_PROB)
    riskScore: int            // round(np.random.uniform(...), 3), in thousandths
  )

  /** Every draw lies in the support of the call that made it, where the
      support depends on values drawn earlier in the same iteration. */
  predicate DrawsFit(d: VisitDraws) {
    && |d.token| == UUID_STRING_LENGTH
    && DAY_OFFSET_DRAW.Contains(d.dayOffset)
    && HOUR_DRAW.Contains(d.hour)
    && MINUTE_DRAW.Contains(d.minute)
    && AGE_POPULATION.Contains(d.ageDraw)
    && WaitRange(d.triage).Contains(d.wait)
    && ConsultationRange(GenerateAge(d.ageDraw)).Contains(d.consultation)
    && TEST_COUNT_DRAW.Contains(d.testCount)
    && |d.samplePicks| == d.testCount
    && SamplePicksFit(|LAB_TESTS|, d.samplePicks)
    && LabDrawsFit(Sample(LAB_TESTS, d.samplePicks), d.labDraws)
    && d.highPick in HIGH_TRIAGE_CHOICES
    && RiskBand(d.triage).Contains(d.riskScore)
  }

  /** One row of the dataset; lab_tests keeps the selected tests in order
      rather than their comma-joined names. */
  datatype VisitRecord = VisitRecord(
    patientId: string,
    visitDate: int,
    arrivalTime: int,
    departureTime: int,
    age: int,
    sex: Sex,
    triage: Triage,
    departmentRouted: Department,
    waitTimeMinutes: int,
    consultationTimeMinutes: int,
    labTests: seq<LabTest>,
    labTurnaroundMinutes: int,
    diagnosis: Diagnosis,
    outcome: Outcome,
    totalVisitMinutes: int,
    riskScore: int
  )

  /** What every generated record satisfies. */
  predicate WellFormed(r: VisitRecord) {
    && |r.patientId| == PATIENT_ID_LENGTH
    // the visit date is in the window, the arrival on that date between 07:00 and 20:59
    && DAY_OFFSET_DRAW.Contains(r.visitDate)
    && 7 * MINUTES_PER_HOUR <= r.arrivalTime - r.visitDate * MINUTES_PER_DAY <= 20 * MINUTES_PER_HOUR + 59
    && 0 <= r.age <= 94
    && WaitRange(r.triage).Contains(r.waitTimeMinutes)
    && ConsultationRange(r.age).Contains(r.consultationTimeMinutes)
    // one to three distinct tests from the catalogue
    && 1 <= |r.labTests| <= 3
    && Distinct(r.labTests)
    && LabLowSum(r.labTests) <= r.labTurnaroundMinutes <= LabHighSum(r.labTests) - |r.labTests|
    && RoutingConsistent(r.triage, r.age, r.departmentRouted)
    && RiskBand(r.triage).Contains(r.riskScore)
    // the timing invariant
    && r.departureTime == r.arrivalTime + r.waitTimeMinutes + r.consultationTimeMinutes + r.labTurnaroundMinutes
    && r.totalVisitMinutes == r.departureTime - r.arrivalTime
  }

  /** The record one iteration of the loop builds from its draws. */
  function Assemble(d: VisitDraws): (r: VisitRecord)
    requires DrawsFit(d)
    ensures WellFormed(r)
  {
    assert Distinct(LAB_TESTS) by { CataloguesListEveryValueOnce(); }
    var visitDate := d.dayOffset;
    var arrival := ArrivalMinute(visitDate, RandTime(d.hour, d.minute));
    var age := GenerateAge(d.ageDraw);
    var wait := SimulateWaitTime(d.triage, d.wait);
    var consultation := SimulateConsultationTime(age, d.consultation);
    var tests := Sample(LAB_TESTS, d.samplePicks);
    var lab := LabTurnaround(tests, d.labDraws);
    var department := RoutePatient(d.triage, age, d.highPick, d.anyPick);
    var departure := arrival + wait + consultation + lab;
    VisitRecord(PatientId(d.token), visitDate, arrival, departure, age, d.sex, d.triage,
                department, wait, consultation, tests, lab, d.diagnosis, d.outcome,
                departure - arrival, RiskScore(d.triage, d.riskScore))
  }

  /** Every record of a generated dataset leaves no earlier than it arrived,
      and stays at least 1 + 6 + 5 minutes. */
  lemma DepartureFollowsArrival(r: VisitRecord)
    requires WellFormed(r)
    ensures r.departureTime >= r.arrivalTime + 12
    ensures r.totalVisitMinutes == r.waitTimeMinutes + r.consultationTimeMinutes + r.labTurnaroundMinutes
  {
  }

  /** A uuid string whose first eight characters are the given id. */
  function UuidWithPrefix(id: string): (token: string)
    requires |id| == PATIENT_ID_LENGTH
    ensures |token| == UUID_STRING_LENGTH && PatientId(token) == id
  {
    var token := id + "-0000-4000-8000-000000000000";
    assert token[..PATIENT_ID_LENGTH] == id;
    token
  }

  /** Draws that repeat a well-formed record's values, one per field, build
      that record. */
  lemma AssembleRebuilds(d: VisitDraws, r: VisitRecord)
    requires DrawsFit(d)
    requires PatientId(d.token) == r.patientId && d.dayOffset == r.visitDate
    requires RandTime(d.hour, d.minute) == r.arrivalTime - r.visitDate * MINUTES_PER_DAY
    requires d.ageDraw == r.age && d.sex == r.sex && d.triage == r.triage
    requires d.wait == r.waitTimeMinutes && d.consultation == r.consultationTimeMinutes
    requires Sample(LAB_TESTS, d.samplePicks) == r.labTests
    requires LabTurnaround(r.labTests, d.labDraws) == r.labTurnaroundMinutes
    requires RoutePatient(r.triage, r.age, d.highPick, d.anyPick) == r.departmentRouted
    requires d.diagnosis == r.diagnosis && d.outcome == r.outcome && d.riskScore == r.riskScore
    requires r.departureTime == r.arrivalTime + r.waitTimeMinutes + r.consultationTimeMinutes + r.labTurnaroundMinutes
    requires r.totalVisitMinutes == r.departureTime - r.arrivalTime
    ensures Assemble(d) == r
  {
    assert ArrivalMinute(d.dayOffset, RandTime(d.hour, d.minute)) == r.arrivalTime;
    assert r == VisitRecord(r.patientId, r.visitDate, r.arrivalTime, r.departureTime, r.age, r.sex,
                            r.triage, r.departmentRouted, r.waitTimeMinutes,
                            r.consultationTimeMinutes, r.labTests, r.labTurnaroundMinutes,
                            r.diagnosis, r.outcome, r.totalVisitMinutes, r.riskScore);
  }

  /** The sample picks and turnaround draws produce the record's lab tests
      and lab turnaround. */
  predicate LabDrawsBuild(r: VisitRecord, picks: seq<nat>, labDraws: seq<int>) {
    && SamplePicksFit(|LAB_TESTS|, picks)
    && Sample(LAB_TESTS, picks) == r.labTests
    && LabDrawsFit(r.labTests, labDraws)
    && LabTurnaround(r.labTests, labDraws) == r.labTurnaroundMinutes
  }

  /** The lab columns of a well-formed record come from some draws. */
  lemma LabDrawsOfRecord(r: VisitRecord)
    requires WellFormed(r)
    ensures exists picks, labDraws :: LabDrawsBuild(r, picks, labDraws)
  {
    CataloguesListEveryValueOnce();
    SampleReachesEverySelection(LAB_TESTS, r.labTests);
    var picks :| SamplePicksFit(|LAB_TESTS|, picks) && Sample(LAB_TESTS, picks) == r.labTests;
    LabTurnaroundReachesEveryTotal(r.labTests, r.labTurnaroundMinutes);
    var labDraws :| LabDrawsFit(r.labTests, labDraws) && LabTurnaround(r.labTests, labDraws) == r.labTurnaroundMinutes;
    assert LabDrawsBuild(r, picks, labDraws);
  }

  /** The inverse of Assemble: draws that rebuild a well-formed record, given
      sample picks and turnaround draws for its lab columns. */
  function RecordDraws(r: VisitRecord, picks: seq<nat>, labDraws: seq<int>): (d: VisitDraws)
    requires WellFormed(r) && LabDrawsBuild(r, picks, labDraws)
    ensures DrawsFit(d) && Assemble(d) == r
  {
    var timeOfDay := r.arrivalTime - r.visitDate * MINUTES_PER_DAY;
    var hour, minute := timeOfDay / MINUTES_PER_HOUR, timeOfDay % MINUTES_PER_HOUR;
    assert HOUR_DRAW.Contains(hour) && MINUTE_DRAW.Contains(minute) && RandTime(hour, minute) == timeOfDay by {
      RandTimeReachesEveryMinute(timeOfDay);
    }
    var highPick := if r.departmentRouted == Surgery then Surgery else Emergency;
    var d := VisitDraws(UuidWithPrefix(r.patientId), r.visitDate, hour, minute, r.age, r.sex,
                        r.triage, r.waitTimeMinutes, r.consultationTimeMinutes, |r.labTests|,
                        picks, labDraws, highPick, r.departmentRouted, r.diagnosis, r.outcome,
                        r.riskScore);
    assert DrawsFit(d);
    assert Assemble(d) == r by { AssembleRebuilds(d, r); }
    d
  }

  /** Conversely every well-formed record is the one some fitting draws
      produce, so WellFormed describes exactly the records the loop emits. */
  lemma WellFormedRecordsAreGenerated(r: VisitRecord)
    requires WellFormed(r)
    ensures exists d :: DrawsFit(d) && Assemble(d) == r
  {
    LabDrawsOfRecord(r);
    var picks, labDraws :| LabDrawsBuild(r, picks, labDraws);
    var d := RecordDraws(r, picks, labDraws);
    assert DrawsFit(d) && Assemble(d) == r;
  }

  /** The number of iterations of `for _ in range(n)`. */
  function RangeLength(n: int): nat {
    if n > 0 then n else 0
  }

  /** The body of the loop of simulate_dataset: one record, built from the
      draws of one iteration, with the departure computed step by step from
      the arrival through the start and end of the consultation. */
  method SimulateVisit(d: VisitDraws) returns (record: VisitRecord)
    requires DrawsFit(d)
    ensures record == Assemble(d)
  {
    var patientId := PatientId(d.token);

    // date and arrival time
    var visitDate := d.dayOffset;
    var arrivalTime := RandTime(d.hour, d.minute);
    var arrival := ArrivalMinute(visitDate, arrivalTime);

    // demographics
    var age := GenerateAge(d.ageDraw);

    // clinical workflow
    var wait := SimulateWaitTime(d.triage, d.wait);
    var consultation := SimulateConsultationTime(age, d.consultation);

    // lab workflow
    var tests := Sample(LAB_TESTS, d.samplePicks);
    var lab := LabTurnaround(tests, d.labDraws);

    // routing
    var department := RoutePatient(d.triage, age, d.highPick, d.anyPick);

    // timestamps
    var consultationStart := arrival + wait;
    var consultationEnd := consultationStart + consultation;
    var departure := consultationEnd + lab;

    // risk score based on triage
    var risk := RiskScore(d.triage, d.riskScore);

    record := VisitRecord(patientId, visitDate, arrival, departure, age, d.sex, d.triage,
                          department, wait, consultation, tests, lab, d.diagnosis,
                          d.outcome, departure - arrival, risk);
  }

  /** Every iteration's draws fit the calls that made them. */
  predicate AllDrawsFit(draws: seq<VisitDraws>) {
    forall k :: 0 <= k < |draws| ==> DrawsFit(draws[k])
  }

  lemma AllDrawsFitPrefix(draws: seq<VisitDraws>, i: nat)
    requires AllDrawsFit(draws) && i <= |draws|
    ensures AllDrawsFit(draws[..i])
  {
    forall k | 0 <= k < i
      ensures DrawsFit(draws[..i][k])
    {
      assert draws[..i][k] == draws[k];
    }
  }

  /** The rows the loop has appended once it has consumed the given draws,
      one per iteration, in order. */
  function Dataset(draws: seq<VisitDraws>): (rows: seq<VisitRecord>)
    requires AllDrawsFit(draws)
    ensures |rows| == |draws|
  {
    if draws == [] then []
    else Dataset(draws[..|draws| - 1]) + [Assemble(draws[|draws| - 1])]
  }

  /** Row k is the record built from the draws of iteration k. */
  lemma {:induction false} DatasetAt(draws: seq<VisitDraws>, k: nat)
    requires AllDrawsFit(draws) && k < |draws|
    ensures Dataset(draws)[k] == Assemble(draws[k])
    ensures WellFormed(Dataset(draws)[k])
    decreases |draws|
  {
    if k < |draws| - 1 {
      var prefix := draws[..|draws| - 1];
      DatasetAt(prefix, k);
      assert prefix[k] == draws[k];
    }
  }

  /** Later iterations only append: the rows built from a prefix of the
      draws are a prefix of the rows built from all of them. */
  lemma {:induction false} DatasetOnlyAppends(draws: seq<VisitDraws>, more: seq<VisitDraws>)
    requires AllDrawsFit(draws + more)
    ensures AllDrawsFit(draws)
    ensures Dataset(draws) <= Dataset(draws + more)
    decreases |more|
  {
    assert forall k :: 0 <= k < |draws| ==> draws[k] == (draws + more)[k];
    if more != [] {
      var shorter := more[..|more| - 1];
      assert (draws + more)[..|draws + more| - 1] == draws + shorter;
      DatasetOnlyAppends(draws, shorter);
    } else {
      assert draws + more == draws;
    }
  }

  /** simulate_dataset(n), with draws[k] the values the random calls return
      in iteration k: max(n, 0) iterations, each appending exactly the record
      its own draws determine. */
  method SimulateDataset(n: int, draws: seq<VisitDraws>) returns (rows: seq<VisitRecord>)
    requires |draws| == RangeLength(n)
    requires AllDrawsFit(draws)
    ensures rows == Dataset(draws)
  {
    rows := [];
    var i := 0;
    while i < n
      invariant 0 <= i <= |draws|
      invariant AllDrawsFit(draws[..i])
      invariant rows == Dataset(draws[..i])
    {
      var record := SimulateVisit(draws[i]);
      AllDrawsFitPrefix(draws, i + 1);
      assert draws[..i + 1][..i] == draws[..i] && draws[..i + 1][i] == draws[i];
      rows := rows + [record];
      i := i + 1;
    }
    assert draws[..i] == draws;
  }
}
