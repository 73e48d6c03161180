/**
 * The fixed catalogues of the visit generator. Each list of strings becomes a
 * datatype whose constructors are its entries, a sequence of those
 * constructors in the list's order, and the string written for each entry.
 */
module Catalog {
  import opened RandomSource

  datatype Sex = Male | Female {
    function Name(): string {
      match this
      case Male => "Male"
      case Female => "Female"
    }
  }

  datatype Triage = Low | Medium | High | Critical {
    function Name(): string {
      match this
      case Low => "Low"
      case Medium => "Medium"
      case High => "High"
      case Critical => "Critical"
    }
  }

  datatype Department = OPD | Emergency | Pediatrics | Maternity | Surgery | Diagnostics {
    function Name(): string {
      match this
      case OPD => "OPD"
      case Emergency => "Emergency"
      case Pediatrics => "Pediatrics"
      case Maternity => "Maternity"
      case Surgery => "Surgery"
      case Diagnostics => "Diagnostics"
    }
  }

  datatype LabTest = CBC | MalariaRDT | BloodGlucose | Urinalysis | ChestXray | CovidPCR {
    function Name(): string {
      match this
      case CBC => "CBC"
      case MalariaRDT => "Malaria RDT"
      case BloodGlucose => "Blood Glucose"
      case Urinalysis => "Urinalysis"
      case ChestXray => "Chest Xray"
      case CovidPCR => "COVID PCR"
    }
  }

  datatype Diagnosis =
    | Malaria | Typhoid | URTI | Pneumonia | DiabetesComplication | Hypertension
    | Injury | PregnancyRelated | Gastroenteritis | UTI | Covid19 | NonSpecificFever
  {
    function Name(): string {
      match this
      case Malaria => "Malaria"
      case Typhoid => "Typhoid"
      case URTI => "URTI"
      case Pneumonia => "Pneumonia"
      case DiabetesComplication => "Diabetes Complication"
      case Hypertension => "Hypertension"
      case Injury => "Injury"
      case PregnancyRelated => "Pregnancy-related"
      case Gastroenteritis => "Gastroenteritis"
      case UTI => "UTI"
      case Covid19 => "COVID-19"
      case NonSpecificFever => "Non-specific Fever"
    }
  }

  datatype Outcome = Discharged | Admitted | Referred | Deceased {
    function Name(): string {
      match this
      case Discharged => "Discharged"
      case Admitted => "Admitted"
      case Referred => "Referred"
      case Deceased => "Deceased"
    }
  }

  const SEX: seq<Sex> := [Male, Female]

  const DIAGNOSES: seq<Diagnosis> :=
    [ Malaria, Typhoid, URTI, Pneumonia, DiabetesComplication, Hypertension,
      Injury, PregnancyRelated, Gastroenteritis, UTI, Covid19, NonSpecificFever ]

  const TRIAGE: seq<Triage> := [Low, Medium, High, Critical]

  const DEPARTMENTS: seq<Department> := [OPD, Emergency, Pediatrics, Maternity, Surgery, Diagnostics]

  const LAB_TESTS: seq<LabTest> := [CBC, MalariaRDT, BloodGlucose, Urinalysis, ChestXray, CovidPCR]

  const OUTCOMES: seq<Outcome> := [Discharged, Admitted, Referred, Deceased]

  /** Each catalogue lists every one of its values exactly once, so a value of
      the datatype is exactly an entry of the list, and a uniform choice over
      the list can return any value of the datatype. */
  lemma CataloguesListEveryValueOnce()
    ensures |SEX| == 2 && Distinct(SEX) && forall s: Sex :: s in SEX
    ensures |DIAGNOSES| == 12 && Distinct(DIAGNOSES) && forall d: Diagnosis :: d in DIAGNOSES
    ensures |TRIAGE| == 4 && Distinct(TRIAGE) && forall t: Triage :: t in TRIAGE
    ensures |DEPARTMENTS| == 6 && Distinct(DEPARTMENTS) && forall d: Department :: d in DEPARTMENTS
    ensures |LAB_TESTS| == 6 && Distinct(LAB_TESTS) && forall t: LabTest :: t in LAB_TESTS
    ensures |OUTCOMES| == 4 && Distinct(OUTCOMES) && forall o: Outcome :: o in OUTCOMES
  {
    forall s: Sex ensures s in SEX {
      var i := match s case Male => 0 case Female => 1;
      assert SEX[i] == s;
    }
    forall d: Diagnosis ensures d in DIAGNOSES {
      var i := match d
        case Malaria => 0 case Typhoid => 1 case URTI => 2 case Pneumonia => 3
        case DiabetesComplication => 4 case Hypertension => 5 case Injury => 6
        case PregnancyRelated => 7 case Gastroenteritis => 8 case UTI => 9
        case Covid19 => 10 case NonSpecificFever => 11;
      assert DIAGNOSES[i] == d;
    }
    forall t: Triage ensures t in TRIAGE {
      var i := match t case Low => 0 case Medium => 1 case High => 2 case Critical => 3;
      assert TRIAGE[i] == t;
    }
    forall d: Department ensures d in DEPARTMENTS {
      var i := match d
        case OPD => 0 case Emergency => 1 case Pediatrics => 2
        case Maternity => 3 case Surgery => 4 case Diagnostics => 5;
      assert DEPARTMENTS[i] == d;
    }
    forall t: LabTest ensures t in LAB_TESTS {
      var i := match t
        case CBC => 0 case MalariaRDT => 1 case BloodGlucose => 2
        case Urinalysis => 3 case ChestXray => 4 case CovidPCR => 5;
      assert LAB_TESTS[i] == t;
    }
    forall o: Outcome ensures o in OUTCOMES {
      var i := match o case Discharged => 0 case Admitted => 1 case Referred => 2 case Deceased => 3;
      assert OUTCOMES[i] == o;
    }
  }

  /** The lab test names are nonempty, distinct and none contains a comma,
      which is what splitting the comma-joined lab_tests column relies on. */
  lemma LabTestNamesAreCommaFree()
    ensures forall t: LabTest :: |t.Name()| > 0 && ',' !in t.Name()
    ensures forall t: LabTest, u: LabTest :: t.Name() == u.Name() ==> t == u
  {
  }
}
