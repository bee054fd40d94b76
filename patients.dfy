/**
  The patient routes: listing, lookup, registration, allow-listed update,
  soft deactivation, explicit re-assessment and appointment booking.
*/
module Patients {
  import opened Records
  import opened Seqs
  import opened Assessment
  import opened Store

  // ---------------------------------------------------------------------------
  // Listings
  // ---------------------------------------------------------------------------

  /** The query string of the default listing (the hospital filter is not modelled). */
  datatype ListQuery = ListQuery(riskLevel: Option<string>, disease: Option<string>)

  /** The listing's sort key, `latestRiskProbability`; an unassessed patient ranks lowest. */
  function RiskKey(p: Patient): Option<int> {
    p.latestRiskProbability
  }

  /** The filter of the default listing: active, and equal on each query field that is given. */
  predicate Listed(p: Patient, q: ListQuery) {
    && p.isActive
    && (Truthy(q.riskLevel) ==> p.latestRiskLevel == q.riskLevel)
    && (Truthy(q.disease) ==> p.disease == q.disease)
  }

  /**
    `GET /api/patients`: exactly the listed documents, each as often as it is
    stored, in non-increasing order of risk probability.
  */
  function List(docs: seq<Patient>, q: ListQuery): (r: seq<Patient>)
    ensures SortedDesc(r, RiskKey)
    ensures forall p :: multiset(r)[p] == if Listed(p, q) then multiset(docs)[p] else 0
  {
    SortDesc(Filter(docs, p => Listed(p, q)), RiskKey)
  }

  /** The filter of the high-risk listing. */
  predicate HighRiskListed(p: Patient) {
    p.isActive && p.latestRiskLevel == Some("High")
  }

  /** `GET /api/patients/high-risk` */
  function HighRisk(docs: seq<Patient>): (r: seq<Patient>)
    ensures SortedDesc(r, RiskKey)
    ensures forall p :: multiset(r)[p] == if HighRiskListed(p) then multiset(docs)[p] else 0
  {
    SortDesc(Filter(docs, HighRiskListed), RiskKey)
  }

  /** The high-risk listing is the default listing asked for risk level "High" and no disease. */
  lemma HighRiskIsListing(docs: seq<Patient>)
    ensures HighRisk(docs) == List(docs, ListQuery(Some("High"), None))
  {
    var q := ListQuery(Some("High"), None);
    FilterAgrees(docs, HighRiskListed, p => Listed(p, q));
  }

  // ---------------------------------------------------------------------------
  // Lookup
  // ---------------------------------------------------------------------------

  /** `GET /api/patients/:id`: the first active document the id selects, or NotFound. */
  function Get(docs: seq<Patient>, id: string, isObjectId: string -> bool): (r: Reply<Patient>)
    ensures !r.InvalidArgument?
    ensures r.Ok? ==> r.value in docs && r.value.isActive && Selects(IdFilter(id, isObjectId), r.value)
    ensures r.NotFound? <==>
              forall p :: p in docs ==> !(p.isActive && Selects(IdFilter(id, isObjectId), p))
  {
    match FindOne(docs, IdFilter(id, isObjectId), true)
    case None => NotFound
    case Some(i) => Ok(docs[i])
  }

  // ---------------------------------------------------------------------------
  // Registration
  // ---------------------------------------------------------------------------

  /** The body of `POST /api/patients`; `None` is a field that is absent or null. */
  datatype NewPatientBody = NewPatientBody(
    name: Option<string>,
    age: Option<int>,
    gender: Option<string>,
    phone: Option<string>,
    disease: Option<string>,
    treatmentStage: Option<int>,
    financialScore: Option<int>,
    schemeEnrolled: Option<bool>,
    enrolledSchemes: Option<seq<string>>,
    currentHospital: Option<string>,
    followUpCallsReceived: Option<int>,
    missedAppointments: Option<int>,
    daysSinceLastVisit: Option<int>,
    hospitalDelayDays: Option<int>,
    appointments: Option<seq<Appointment>>,
    medicalHistory: Option<seq<HistoryEntry>>,
    aadhaarLast4: Option<string>,
    aadhaarVerified: Option<bool>,
    initialDiagnosis: Option<string>)

  /**
    The document `new Patient({...})` builds from the body, before the initial
    diagnosis is recorded: every supplied value is kept, every missing one
    takes its default, and the document is active and not yet assessed.
  */
  function NewDocument(body: NewPatientBody, storageId: string, patientId: string): (p: Patient)
    ensures p.storageId == storageId && p.patientId == patientId
    ensures p.isActive && p.riskAssessments == [] && p.latestRiskLevel.None? && p.latestRiskProbability.None?
    ensures p.name == body.name && p.age == body.age && p.gender == body.gender && p.phone == body.phone
    ensures p.disease == body.disease && p.currentHospital == body.currentHospital
    ensures body.treatmentStage.None? ==> p.treatmentStage == 1
    ensures body.financialScore.None? ==> p.financialScore == 5
    ensures body.schemeEnrolled.None? ==> !p.schemeEnrolled
    ensures body.enrolledSchemes.None? ==> p.enrolledSchemes == []
    ensures body.followUpCallsReceived.None? ==> p.followUpCallsReceived == 0
    ensures body.missedAppointments.None? ==> p.missedAppointments == 0
    ensures body.daysSinceLastVisit.None? ==> p.daysSinceLastVisit == 0
    ensures body.hospitalDelayDays.None? ==> p.hospitalDelayDays == 0
    ensures body.appointments.None? ==> p.appointments == []
    ensures body.medicalHistory.None? ==> p.medicalHistory == []
    ensures body.aadhaarVerified.None? ==> !p.aadhaarVerified
    ensures body.treatmentStage.Some? ==> p.treatmentStage == body.treatmentStage.value
    ensures body.financialScore.Some? ==> p.financialScore == body.financialScore.value
    ensures body.schemeEnrolled.Some? ==> p.schemeEnrolled == body.schemeEnrolled.value
    ensures body.enrolledSchemes.Some? ==> p.enrolledSchemes == body.enrolledSchemes.value
    ensures body.followUpCallsReceived.Some? ==> p.followUpCallsReceived == body.followUpCallsReceived.value
    ensures body.missedAppointments.Some? ==> p.missedAppointments == body.missedAppointments.value
    ensures body.daysSinceLastVisit.Some? ==> p.daysSinceLastVisit == body.daysSinceLastVisit.value
    ensures body.hospitalDelayDays.Some? ==> p.hospitalDelayDays == body.hospitalDelayDays.value
    ensures body.appointments.Some? ==> p.appointments == body.appointments.value
    ensures body.medicalHistory.Some? ==> p.medicalHistory == body.medicalHistory.value
    ensures body.aadhaarVerified.Some? ==> p.aadhaarVerified == body.aadhaarVerified.value
    ensures p.aadhaarLast4.Some? <==> Truthy(body.aadhaarLast4)
    ensures Truthy(body.aadhaarLast4) ==> p.aadhaarLast4 == body.aadhaarLast4
  {
    Patient(
      storageId, patientId,
      body.name, body.age, body.gender, body.phone, body.disease,
      body.treatmentStage.GetOr(1),
      body.financialScore.GetOr(5),
      body.schemeEnrolled.GetOr(false),
      body.enrolledSchemes.GetOr([]),
      body.currentHospital,
      body.followUpCallsReceived.GetOr(0),
      body.missedAppointments.GetOr(0),
      body.daysSinceLastVisit.GetOr(0),
      body.hospitalDelayDays.GetOr(0),
      if Truthy(body.aadhaarLast4) then body.aadhaarLast4 else None,
      body.aadhaarVerified.GetOr(false),
      true,
      body.medicalHistory.GetOr([]),
      body.appointments.GetOr([]),
      [], None, None)
  }

  /** The history entry recording the initial diagnosis. */
  function InitialEntry(body: NewPatientBody, now: int): HistoryEntry
    requires Truthy(body.initialDiagnosis)
  {
    HistoryEntry(body.currentHospital.GetOr(""), body.initialDiagnosis.value, "", "", Some(now), "Initial registration")
  }

  /**
    The document registration saves before its first assessment: the new
    document, with one more history entry after the supplied history when
    an initial diagnosis is given.
  */
  function Registered(body: NewPatientBody, storageId: string, patientId: string, now: int): (p: Patient)
    ensures var doc := NewDocument(body, storageId, patientId);
      p.(medicalHistory := doc.medicalHistory) == doc
    ensures !Truthy(body.initialDiagnosis) ==> p.medicalHistory == body.medicalHistory.GetOr([])
    ensures Truthy(body.initialDiagnosis) ==>
              var supplied := body.medicalHistory.GetOr([]);
              && |p.medicalHistory| == |supplied| + 1
              && IsPrefix(supplied, p.medicalHistory)
              && p.medicalHistory[|supplied|].hospital == body.currentHospital.GetOr("")
              && p.medicalHistory[|supplied|].diagnosis == body.initialDiagnosis.value
              && p.medicalHistory[|supplied|].treatment == ""
              && p.medicalHistory[|supplied|].doctor == ""
              && p.medicalHistory[|supplied|].date == Some(now)
              && p.medicalHistory[|supplied|].notes == "Initial registration"
  {
    var doc := NewDocument(body, storageId, patientId);
    if Truthy(body.initialDiagnosis) then
      doc.(medicalHistory := doc.medicalHistory + [InitialEntry(body, now)])
    else
      doc
  }

  /** `POST /api/patients`: saves the new document, then assesses it. */
  method Create(db: PatientCollection, body: NewPatientBody, storageId: string, patientId: string, env: Env)
    returns (p: Patient)
    requires db.Valid()
    modifies db
    ensures db.Valid() && Evolves(old(db.docs), db.docs)
    ensures db.docs == old(db.docs) + [p]
    ensures p == Assessed(Registered(body, storageId, patientId, env.now), env.engine, env.now)
  {
    var doc := NewDocument(body, storageId, patientId);
    if Truthy(body.initialDiagnosis) {
      doc := doc.(medicalHistory := doc.medicalHistory + [InitialEntry(body, env.now)]);
    }
    doc := Assessed(doc, env.engine, env.now);
    db.docs := db.docs + [doc];
    p := doc;
  }

  // ---------------------------------------------------------------------------
  // Allow-listed update
  // ---------------------------------------------------------------------------

  /** The keys `PUT /api/patients/:id` may write. */
  datatype Key =
    | Name | Age | Gender | Phone | Disease | TreatmentStage | FinancialScore
    | SchemeEnrolled | EnrolledSchemes | CurrentHospital | FollowUpCallsReceived
    | MissedAppointments | DaysSinceLastVisit | HospitalDelayDays
    | AadhaarLast4 | AadhaarVerified

  /** The allow-list, in the order the route walks it. */
  const Allowed: seq<Key> := [
    Name, Age, Gender, Phone, Disease, TreatmentStage, FinancialScore,
    SchemeEnrolled, EnrolledSchemes, CurrentHospital, FollowUpCallsReceived,
    MissedAppointments, DaysSinceLastVisit, HospitalDelayDays,
    AadhaarLast4, AadhaarVerified]

  /**
    The body of `PUT /api/patients/:id`; `None` is a key that is undefined.
    The last four fields are examples of keys a caller may send outside the
    allow-list; `Assign` reads no key outside it, so neither these nor any
    other such key can reach the document.
  */
  datatype UpdateBody = UpdateBody(
    name: Option<string>,
    age: Option<int>,
    gender: Option<string>,
    phone: Option<string>,
    disease: Option<string>,
    treatmentStage: Option<int>,
    financialScore: Option<int>,
    schemeEnrolled: Option<bool>,
    enrolledSchemes: Option<seq<string>>,
    currentHospital: Option<string>,
    followUpCallsReceived: Option<int>,
    missedAppointments: Option<int>,
    daysSinceLastVisit: Option<int>,
    hospitalDelayDays: Option<int>,
    aadhaarLast4: Option<string>,
    aadhaarVerified: Option<bool>,
    patientId: Option<string>,
    isActive: Option<bool>,
    medicalHistory: Option<seq<HistoryEntry>>,
    appointments: Option<seq<Appointment>>)

  /**
    `r` differs from `p` at most in allow-listed fields: the ids, `isActive`,
    the three embedded collections and the cached risk fields are as in `p`.
  */
  predicate KeepsUnlisted(p: Patient, r: Patient) {
    && r.storageId == p.storageId && r.patientId == p.patientId && r.isActive == p.isActive
    && r.medicalHistory == p.medicalHistory && r.appointments == p.appointments
    && r.riskAssessments == p.riskAssessments
    && r.latestRiskLevel == p.latestRiskLevel && r.latestRiskProbability == p.latestRiskProbability
  }

  /**
    One step of the route's `forEach`: `if (body[key] !== undefined) patient[key] = body[key]`.
    The field named by `k` takes the body's value when the body has one; no other field changes.
  */
  function Assign(p: Patient, b: UpdateBody, k: Key): Patient {
    p.(name := if k == Name && b.name.Some? then b.name else p.name,
       age := if k == Age && b.age.Some? then b.age else p.age,
       gender := if k == Gender && b.gender.Some? then b.gender else p.gender,
       phone := if k == Phone && b.phone.Some? then b.phone else p.phone,
       disease := if k == Disease && b.disease.Some? then b.disease else p.disease,
       treatmentStage :=
         if k == TreatmentStage && b.treatmentStage.Some? then b.treatmentStage.value else p.treatmentStage,
       financialScore :=
         if k == FinancialScore && b.financialScore.Some? then b.financialScore.value else p.financialScore,
       schemeEnrolled :=
         if k == SchemeEnrolled && b.schemeEnrolled.Some? then b.schemeEnrolled.value else p.schemeEnrolled,
       enrolledSchemes :=
         if k == EnrolledSchemes && b.enrolledSchemes.Some? then b.enrolledSchemes.value else p.enrolledSchemes,
       currentHospital :=
         if k == CurrentHospital && b.currentHospital.Some? then b.currentHospital else p.currentHospital,
       followUpCallsReceived :=
         if k == FollowUpCallsReceived && b.followUpCallsReceived.Some? then b.followUpCallsReceived.value
         else p.followUpCallsReceived,
       missedAppointments :=
         if k == MissedAppointments && b.missedAppointments.Some? then b.missedAppointments.value
         else p.missedAppointments,
       daysSinceLastVisit :=
         if k == DaysSinceLastVisit && b.daysSinceLastVisit.Some? then b.daysSinceLastVisit.value
         else p.daysSinceLastVisit,
       hospitalDelayDays :=
         if k == HospitalDelayDays && b.hospitalDelayDays.Some? then b.hospitalDelayDays.value
         else p.hospitalDelayDays,
       aadhaarLast4 := if k == AadhaarLast4 && b.aadhaarLast4.Some? then b.aadhaarLast4 else p.aadhaarLast4,
       aadhaarVerified :=
         if k == AadhaarVerified && b.aadhaarVerified.Some? then b.aadhaarVerified.value else p.aadhaarVerified)
  }

  /** The document after the `forEach` has walked the keys `ks` in order. */
  function PatchKeys(p: Patient, b: UpdateBody, ks: seq<Key>): Patient {
    if ks == [] then p else Assign(PatchKeys(p, b, ks[..|ks| - 1]), b, ks[|ks| - 1])
  }

  /** Walking one more key is one more `Assign` step. */
  lemma PatchKeysSnoc(p: Patient, b: UpdateBody, ks: seq<Key>, k: Key)
    ensures PatchKeys(p, b, ks + [k]) == Assign(PatchKeys(p, b, ks), b, k)
  {
    assert (ks + [k])[..|ks|] == ks;
  }

  /** The value of an allow-listed field after walking `ks`: the body's value if its key was walked and the body has it. */
  function Walked<T>(k: Key, ks: seq<Key>, given: Option<T>, before: T): T {
    if k in ks && given.Some? then given.value else before
  }

  /** `Walked` for a field that is itself optional. */
  function WalkedOpt<T>(k: Key, ks: seq<Key>, given: Option<T>, before: Option<T>): Option<T> {
    if k in ks && given.Some? then given else before
  }

  /** Walking any keys writes no unlisted field. */
  lemma {:induction false} PatchKeysKeeps(p: Patient, b: UpdateBody, ks: seq<Key>)
    ensures KeepsUnlisted(p, PatchKeys(p, b, ks))
  {
    if ks != [] {
      PatchKeysKeeps(p, b, ks[..|ks| - 1]);
    }
  }

  /**
    Walking the keys `ks` writes each profile field whose key was walked and
    that the body has, and leaves the others as they were.
  */
  lemma {:induction false} PatchKeysWritesProfile(p: Patient, b: UpdateBody, ks: seq<Key>)
    ensures var r := PatchKeys(p, b, ks);
      && r.name == WalkedOpt(Name, ks, b.name, p.name)
      && r.age == WalkedOpt(Age, ks, b.age, p.age)
      && r.gender == WalkedOpt(Gender, ks, b.gender, p.gender)
      && r.phone == WalkedOpt(Phone, ks, b.phone, p.phone)
  {
    if ks != [] {
      var init, last := ks[..|ks| - 1], ks[|ks| - 1];
      assert ks == init + [last];
      PatchKeysWritesProfile(p, b, init);
    }
  }

  /**
    Walking the keys `ks` writes each care field whose key was walked and
    that the body has, and leaves the others as they were.
  */
  lemma {:induction false} PatchKeysWritesCare(p: Patient, b: UpdateBody, ks: seq<Key>)
    ensures var r := PatchKeys(p, b, ks);
      && r.disease == WalkedOpt(Disease, ks, b.disease, p.disease)
      && r.treatmentStage == Walked(TreatmentStage, ks, b.treatmentStage, p.treatmentStage)
      && r.financialScore == Walked(FinancialScore, ks, b.financialScore, p.financialScore)
      && r.currentHospital == WalkedOpt(CurrentHospital, ks, b.currentHospital, p.currentHospital)
  {
    if ks != [] {
      var init, last := ks[..|ks| - 1], ks[|ks| - 1];
      assert ks == init + [last];
      PatchKeysWritesCare(p, b, init);
    }
  }

  /**
    Walking the keys `ks` writes each scheme field whose key was walked and
    that the body has, and leaves the others as they were.
  */
  lemma {:induction false} PatchKeysWritesSchemes(p: Patient, b: UpdateBody, ks: seq<Key>)
    ensures var r := PatchKeys(p, b, ks);
      && r.schemeEnrolled == Walked(SchemeEnrolled, ks, b.schemeEnrolled, p.schemeEnrolled)
      && r.enrolledSchemes == Walked(EnrolledSchemes, ks, b.enrolledSchemes, p.enrolledSchemes)
  {
    if ks != [] {
      var init, last := ks[..|ks| - 1], ks[|ks| - 1];
      assert ks == init + [last];
      PatchKeysWritesSchemes(p, b, init);
    }
  }

  /**
    Walking the keys `ks` writes each Aadhaar field whose key was walked and
    that the body has, and leaves the others as they were.
  */
  lemma {:induction false} PatchKeysWritesAadhaar(p: Patient, b: UpdateBody, ks: seq<Key>)
    ensures var r := PatchKeys(p, b, ks);
      && r.aadhaarLast4 == WalkedOpt(AadhaarLast4, ks, b.aadhaarLast4, p.aadhaarLast4)
      && r.aadhaarVerified == Walked(AadhaarVerified, ks, b.aadhaarVerified, p.aadhaarVerified)
  {
    if ks != [] {
      var init, last := ks[..|ks| - 1], ks[|ks| - 1];
      assert ks == init + [last];
      PatchKeysWritesAadhaar(p, b, init);
    }
  }

  /**
    Walking the keys `ks` writes each engagement field whose key was walked and
    that the body has, and leaves the others as they were.
  */
  lemma {:induction false} PatchKeysWritesEngagement(p: Patient, b: UpdateBody, ks: seq<Key>)
    ensures var r := PatchKeys(p, b, ks);
      && r.followUpCallsReceived == Walked(FollowUpCallsReceived, ks, b.followUpCallsReceived, p.followUpCallsReceived)
      && r.missedAppointments == Walked(MissedAppointments, ks, b.missedAppointments, p.missedAppointments)
      && r.daysSinceLastVisit == Walked(DaysSinceLastVisit, ks, b.daysSinceLastVisit, p.daysSinceLastVisit)
      && r.hospitalDelayDays == Walked(HospitalDelayDays, ks, b.hospitalDelayDays, p.hospitalDelayDays)
  {
    if ks != [] {
      var init, last := ks[..|ks| - 1], ks[|ks| - 1];
      assert ks == init + [last];
      PatchKeysWritesEngagement(p, b, init);
    }
  }

  /** The allow-list names every key. */
  lemma AllowedIsComplete(k: Key)
    ensures k in Allowed
  {
    match k
    case Name => assert Allowed[0] == k;
    case Age => assert Allowed[1] == k;
    case Gender => assert Allowed[2] == k;
    case Phone => assert Allowed[3] == k;
    case Disease => assert Allowed[4] == k;
    case TreatmentStage => assert Allowed[5] == k;
    case FinancialScore => assert Allowed[6] == k;
    case SchemeEnrolled => assert Allowed[7] == k;
    case EnrolledSchemes => assert Allowed[8] == k;
    case CurrentHospital => assert Allowed[9] == k;
    case FollowUpCallsReceived => assert Allowed[10] == k;
    case MissedAppointments => assert Allowed[11] == k;
    case DaysSinceLastVisit => assert Allowed[12] == k;
    case HospitalDelayDays => assert Allowed[13] == k;
    case AadhaarLast4 => assert Allowed[14] == k;
    case AadhaarVerified => assert Allowed[15] == k;
  }

  /** The document after the update's `forEach` over the allow-list; no unlisted field is written. */
  function Patched(p: Patient, b: UpdateBody): (r: Patient)
    ensures KeepsUnlisted(p, r)
  {
    PatchKeysKeeps(p, b, Allowed);
    PatchKeys(p, b, Allowed)
  }

  /**
    An update writes every allow-listed field the body has and no other: an
    absent key leaves its field as it was, and the ids, `isActive`, the three
    embedded collections and the cached risk fields are never written,
    whatever the body says.
  */
  lemma UpdateOnlyAllowed(p: Patient, b: UpdateBody)
    ensures var r := Patched(p, b);
      && r.name == (if b.name.Some? then b.name else p.name)
      && r.age == (if b.age.Some? then b.age else p.age)
      && r.gender == (if b.gender.Some? then b.gender else p.gender)
      && r.phone == (if b.phone.Some? then b.phone else p.phone)
      && r.disease == (if b.disease.Some? then b.disease else p.disease)
      && r.treatmentStage == b.treatmentStage.GetOr(p.treatmentStage)
      && r.financialScore == b.financialScore.GetOr(p.financialScore)
      && r.schemeEnrolled == b.schemeEnrolled.GetOr(p.schemeEnrolled)
      && r.enrolledSchemes == b.enrolledSchemes.GetOr(p.enrolledSchemes)
      && r.currentHospital == (if b.currentHospital.Some? then b.currentHospital else p.currentHospital)
      && r.followUpCallsReceived == b.followUpCallsReceived.GetOr(p.followUpCallsReceived)
      && r.missedAppointments == b.missedAppointments.GetOr(p.missedAppointments)
      && r.daysSinceLastVisit == b.daysSinceLastVisit.GetOr(p.daysSinceLastVisit)
      && r.hospitalDelayDays == b.hospitalDelayDays.GetOr(p.hospitalDelayDays)
      && r.aadhaarLast4 == (if b.aadhaarLast4.Some? then b.aadhaarLast4 else p.aadhaarLast4)
      && r.aadhaarVerified == b.aadhaarVerified.GetOr(p.aadhaarVerified)
      && r.storageId == p.storageId && r.patientId == p.patientId && r.isActive == p.isActive
      && r.medicalHistory == p.medicalHistory && r.appointments == p.appointments
      && r.riskAssessments == p.riskAssessments
      && r.latestRiskLevel == p.latestRiskLevel && r.latestRiskProbability == p.latestRiskProbability
  {
    PatchKeysWritesProfile(p, b, Allowed);
    PatchKeysWritesCare(p, b, Allowed);
    PatchKeysWritesSchemes(p, b, Allowed);
    PatchKeysWritesAadhaar(p, b, Allowed);
    PatchKeysWritesEngagement(p, b, Allowed);
    forall k: Key ensures k in Allowed {
      AllowedIsComplete(k);
    }
  }

  /** The update's `forEach`: walks the allow-list in order, copying each key the body defines. */
  method PatchAllowed(stored: Patient, body: UpdateBody) returns (doc: Patient)
    ensures doc == Patched(stored, body)
  {
    doc := stored;
    var k := 0;
    while k < |Allowed|
      invariant 0 <= k <= |Allowed|
      invariant doc == PatchKeys(stored, body, Allowed[..k])
    {
      assert Allowed[..k + 1] == Allowed[..k] + [Allowed[k]];
      PatchKeysSnoc(stored, body, Allowed[..k], Allowed[k]);
      doc := Assign(doc, body, Allowed[k]);
      k := k + 1;
    }
    assert Allowed[..k] == Allowed;
  }

  /**
    Saving the patched and reassessed document back in place keeps the
    collection evolving as it may and every document coherent.
  */
  lemma UpdateSaves(docs: seq<Patient>, i: nat, body: UpdateBody, engine: Patient -> Verdict, now: int)
    requires i < |docs|
    ensures Evolves(docs, docs[i := Assessed(Patched(docs[i], body), engine, now)])
    ensures AllCoherent(docs) ==> AllCoherent(docs[i := Assessed(Patched(docs[i], body), engine, now)])
  {
    SaveInPlace(docs, i, Assessed(Patched(docs[i], body), engine, now));
  }

  /** `PUT /api/patients/:id`: patch the allow-listed fields, save, assess. */
  method Update(db: PatientCollection, id: string, body: UpdateBody, env: Env) returns (r: Reply<Patient>)
    requires db.Valid()
    modifies db
    ensures db.Valid() && Evolves(old(db.docs), db.docs)
    ensures match FindOne(old(db.docs), IdFilter(id, env.isObjectId), true)
      case None => r == NotFound && db.docs == old(db.docs)
      case Some(i) =>
        && db.docs == old(db.docs)[i := Assessed(Patched(old(db.docs)[i], body), env.engine, env.now)]
        && r == Ok(db.docs[i])
  {
    var found := FindOne(db.docs, IdFilter(id, env.isObjectId), true);
    if found.None? {
      return NotFound;
    }
    var i := found.value;
    var stored := db.docs[i];
    var doc := PatchAllowed(stored, body);
    doc := Assessed(doc, env.engine, env.now);
    UpdateSaves(db.docs, i, body, env.engine, env.now);
    db.docs := db.docs[i := doc];
    r := Ok(doc);
  }

  // ---------------------------------------------------------------------------
  // Soft deactivation
  // ---------------------------------------------------------------------------

  /** `patient.isActive = false` */
  function Deactivated(p: Patient): (r: Patient)
    ensures !r.isActive
    ensures r.(isActive := p.isActive) == p
  {
    p.(isActive := false)
  }

  /** The collection after `DELETE /api/patients/:id`, whose lookup ignores `isActive`. */
  function AfterDelete(docs: seq<Patient>, q: IdQuery): (r: seq<Patient>)
    ensures (forall j :: 0 <= j < |docs| ==> !Selects(q, docs[j])) ==> r == docs
    ensures (exists j :: 0 <= j < |docs| && Selects(q, docs[j])) ==>
              exists i :: 0 <= i < |docs| && Selects(q, docs[i]) && r == docs[i := docs[i].(isActive := false)]
  {
    match FindOne(docs, q, false)
    case None => docs
    case Some(i) => docs[i := Deactivated(docs[i])]
  }

  /** Deleting twice leaves the collection as deleting once. */
  lemma DeleteIdempotent(docs: seq<Patient>, q: IdQuery)
    ensures AfterDelete(AfterDelete(docs, q), q) == AfterDelete(docs, q)
  {
    var once := AfterDelete(docs, q);
    FindOneDependsOnMatches(docs, once, q, false);
  }

  /** `DELETE /api/patients/:id`: finds the document even when inactive, and only deactivates it. */
  method Delete(db: PatientCollection, id: string, isObjectId: string -> bool) returns (r: Reply<string>)
    requires db.Valid()
    modifies db
    ensures db.Valid() && Evolves(old(db.docs), db.docs)
    ensures db.docs == AfterDelete(old(db.docs), IdFilter(id, isObjectId))
    ensures FindOne(old(db.docs), IdFilter(id, isObjectId), false).None? ==> r == NotFound
    ensures FindOne(old(db.docs), IdFilter(id, isObjectId), false).Some? ==> r == Ok("Patient deactivated")
  {
    var found := FindOne(db.docs, IdFilter(id, isObjectId), false);
    if found.None? {
      return NotFound;
    }
    var i := found.value;
    var doc := db.docs[i];
    doc := doc.(isActive := false);
    db.docs := db.docs[i := doc];
    r := Ok("Patient deactivated");
  }

  // ---------------------------------------------------------------------------
  // Explicit re-assessment
  // ---------------------------------------------------------------------------

  /** `POST /api/patients/:id/assess` */
  method Assess(db: PatientCollection, id: string, env: Env) returns (r: Reply<Patient>)
    requires db.Valid()
    modifies db
    ensures db.Valid() && Evolves(old(db.docs), db.docs)
    ensures match FindOne(old(db.docs), IdFilter(id, env.isObjectId), true)
      case None => r == NotFound && db.docs == old(db.docs)
      case Some(i) =>
        && db.docs == old(db.docs)[i := Assessed(old(db.docs)[i], env.engine, env.now)]
        && r == Ok(db.docs[i])
  {
    var found := FindOne(db.docs, IdFilter(id, env.isObjectId), true);
    if found.None? {
      return NotFound;
    }
    var i := found.value;
    var doc := Assessed(db.docs[i], env.engine, env.now);
    db.docs := db.docs[i := doc];
    r := Ok(doc);
  }

  // ---------------------------------------------------------------------------
  // Appointments
  // ---------------------------------------------------------------------------

  /** The body of `POST /api/patients/:id/appointment` (`kind` is `type`, the date already parsed). */
  datatype AppointmentBody = AppointmentBody(
    date: Option<int>,
    kind: Option<string>,
    status: Option<string>,
    notes: Option<string>)

  /** The appointment the route pushes, with its defaults for missing parts. */
  function NewAppointment(b: AppointmentBody, now: int): (a: Appointment)
    ensures b.date.None? ==> a.date == now
    ensures b.date.Some? ==> a.date == b.date.value
    ensures !Truthy(b.kind) ==> a.kind == "checkup"
    ensures !Truthy(b.status) ==> a.status == "scheduled"
    ensures !Truthy(b.notes) ==> a.notes == ""
    ensures Truthy(b.kind) ==> a.kind == b.kind.value
    ensures Truthy(b.status) ==> a.status == b.status.value
    ensures Truthy(b.notes) ==> a.notes == b.notes.value
  {
    Appointment(b.date.GetOr(now), OrElse(b.kind, "checkup"), OrElse(b.status, "scheduled"), OrElse(b.notes, ""))
  }

  /** The document with one more appointment; nothing else, and no assessment, changes. */
  function WithAppointment(p: Patient, a: Appointment): (r: Patient)
    ensures |r.appointments| == |p.appointments| + 1
    ensures IsPrefix(p.appointments, r.appointments)
    ensures r.appointments[|p.appointments|] == a
    ensures r.(appointments := p.appointments) == p
  {
    p.(appointments := p.appointments + [a])
  }

  /** `POST /api/patients/:id/appointment`: appends and saves, without re-assessing. */
  method AddAppointment(db: PatientCollection, id: string, body: AppointmentBody, env: Env)
    returns (r: Reply<Patient>)
    requires db.Valid()
    modifies db
    ensures db.Valid() && Evolves(old(db.docs), db.docs)
    ensures match FindOne(old(db.docs), IdFilter(id, env.isObjectId), true)
      case None => r == NotFound && db.docs == old(db.docs)
      case Some(i) =>
        && db.docs == old(db.docs)[i := WithAppointment(old(db.docs)[i], NewAppointment(body, env.now))]
        && r == Ok(db.docs[i])
  {
    var found := FindOne(db.docs, IdFilter(id, env.isObjectId), true);
    if found.None? {
      return NotFound;
    }
    var i := found.value;
    var doc := db.docs[i];
    doc := doc.(appointments := doc.appointments + [NewAppointment(body, env.now)]);
    db.docs := db.docs[i := doc];
    r := Ok(doc);
  }
}
