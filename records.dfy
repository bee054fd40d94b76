/**
  The patient record of the CareNet backend and the values stored inside it.

  A patient document is a value: a route loads a copy from the collection,
  changes the copy and saves it back, so every entity here is a datatype.
  Fields that the routes may leave unset are `Option`s; the strings inside a
  history entry use "" for an unset part. The transfer summary and the
  timeline's hospital filter treat an unset string and "" alike; the
  timeline's copied `diagnosis`, `notes` and `doctor` do not, and there the
  model shows "" where the code leaves the field out.
*/
module Records {

  datatype Option<T> = None | Some(value: T) {
    /** `x ?? fallback` */
    function GetOr(fallback: T): T {
      if Some? then value else fallback
    }
  }

  /** The answer of a route: the 200/201 body, a 404, or a 400. */
  datatype Reply<T> = Ok(value: T) | NotFound | InvalidArgument

  /** One entry of `medicalHistory`. */
  datatype HistoryEntry = HistoryEntry(
    hospital: string,
    diagnosis: string,
    treatment: string,
    doctor: string,
    date: Option<int>,
    notes: string)

  /** One entry of `appointments` (`kind` is the document's `type`). */
  datatype Appointment = Appointment(date: int, kind: string, status: string, notes: string)

  /** One entry of `riskAssessments`. */
  datatype RiskAssessment = RiskAssessment(
    assessedAt: int,
    riskLevel: string,
    riskProbability: int,
    primaryReasons: seq<string>,
    recommendation: string)

  /** What the risk engine returns for a patient. */
  datatype Verdict = Verdict(level: string, probability: int, reasons: seq<string>, recommendation: string)

  /** The patient document. `storageId` is the store's `_id`, `patientId` the business id. */
  datatype Patient = Patient(
    storageId: string,
    patientId: string,
    name: Option<string>,
    age: Option<int>,
    gender: Option<string>,
    phone: Option<string>,
    disease: Option<string>,
    treatmentStage: int,
    financialScore: int,
    schemeEnrolled: bool,
    enrolledSchemes: seq<string>,
    currentHospital: Option<string>,
    followUpCallsReceived: int,
    missedAppointments: int,
    daysSinceLastVisit: int,
    hospitalDelayDays: int,
    aadhaarLast4: Option<string>,
    aadhaarVerified: bool,
    isActive: bool,
    medicalHistory: seq<HistoryEntry>,
    appointments: seq<Appointment>,
    riskAssessments: seq<RiskAssessment>,
    latestRiskLevel: Option<string>,
    latestRiskProbability: Option<int>)

  /**
    What the routes take from outside the code shown: the ObjectId shape test
    of the driver, the risk engine behind the assessment step, the clock, and
    the YYYY-MM-DD rendering of a date.
  */
  datatype Env = Env(
    isObjectId: string -> bool,
    engine: Patient -> Verdict,
    now: int,
    formatDay: int -> string)

  /** JavaScript truthiness of an optional string: present and not "". */
  predicate Truthy(s: Option<string>) {
    s.Some? && s.value != ""
  }

  /** `s || fallback` for an optional string. */
  function OrElse(s: Option<string>, fallback: string): (r: string)
  {
    if Truthy(s) then s.value else fallback
  }

  /** An optional string interpolated into a template literal. */
  function Interpolated(s: Option<string>): string {
    match s
    case Some(v) => v
    case None => "undefined"
  }

  /** `prefix` is an initial segment of `s`: nothing in it was changed or removed. */
  predicate IsPrefix<T(==)>(prefix: seq<T>, s: seq<T>) {
    |prefix| <= |s| && s[..|prefix|] == prefix
  }

  /** No element occurs twice. */
  predicate NoDuplicates<T(==)>(s: seq<T>) {
    forall i, j :: 0 <= i < j < |s| ==> s[i] != s[j]
  }
}
