/**
  The patient collection and how a route finds a document in it.

  The collection is kept in its natural (insertion) order, and `findOne`
  returns the first document that matches the query.
*/
module Store {
  import opened Records
  import opened Assessment

  /** The query `idFilter(id)` builds: by storage id or by business id, never both. */
  datatype IdQuery = ByStorageId(id: string) | ByPatientId(id: string)

  /** Whether `p` satisfies the id part of a query. */
  predicate Selects(q: IdQuery, p: Patient) {
    match q
    case ByStorageId(id) => p.storageId == id
    case ByPatientId(id) => p.patientId == id
  }

  /** `idFilter(id)`: an ObjectId-shaped id is looked up as `_id`, any other id as `patientId`. */
  function IdFilter(id: string, isObjectId: string -> bool): (q: IdQuery)
    ensures q.id == id
    ensures forall p: Patient :: Selects(q, p) <==>
              if isObjectId(id) then p.storageId == id else p.patientId == id
  {
    if isObjectId(id) then ByStorageId(id) else ByPatientId(id)
  }

  /** Whether `p` matches `findOne(query)`, with `isActive: { $ne: false }` added when `activeOnly`. */
  predicate Matches(q: IdQuery, activeOnly: bool, p: Patient) {
    Selects(q, p) && (activeOnly ==> p.isActive)
  }

  /** `findOne`: the position of the first matching document, if any. */
  function FindOne(docs: seq<Patient>, q: IdQuery, activeOnly: bool): (r: Option<nat>)
    ensures r.Some? ==> r.value < |docs| && Matches(q, activeOnly, docs[r.value])
    ensures r.Some? ==> forall j :: 0 <= j < r.value ==> !Matches(q, activeOnly, docs[j])
    ensures r.None? ==> forall j :: 0 <= j < |docs| ==> !Matches(q, activeOnly, docs[j])
  {
    if docs == [] then None
    else if Matches(q, activeOnly, docs[0]) then Some(0)
    else match FindOne(docs[1..], q, activeOnly)
      case None => None
      case Some(i) => Some(i + 1)
  }

  /**
    Documents that agree on which of them match a query give the same
    `findOne` answer: what `findOne` returns depends on nothing else.
  */
  lemma {:induction false} FindOneDependsOnMatches(docs: seq<Patient>, docs': seq<Patient>, q: IdQuery, activeOnly: bool)
    requires |docs| == |docs'|
    requires forall j :: 0 <= j < |docs| ==> (Matches(q, activeOnly, docs[j]) <==> Matches(q, activeOnly, docs'[j]))
    ensures FindOne(docs, q, activeOnly) == FindOne(docs', q, activeOnly)
  {
    if docs != [] {
      FindOneDependsOnMatches(docs[1..], docs'[1..], q, activeOnly);
    }
  }

  /**
    How a route may change the collection: documents are only added at the
    end, ids never change, and the three embedded collections of each
    document only grow at their end.
  */
  predicate Evolves(before: seq<Patient>, after: seq<Patient>) {
    && |before| <= |after|
    && forall i :: 0 <= i < |before| ==>
         && after[i].storageId == before[i].storageId
         && after[i].patientId == before[i].patientId
         && IsPrefix(before[i].medicalHistory, after[i].medicalHistory)
         && IsPrefix(before[i].appointments, after[i].appointments)
         && IsPrefix(before[i].riskAssessments, after[i].riskAssessments)
  }

  /** Every document keeps its cached risk fields in step with its assessment trail. */
  predicate AllCoherent(docs: seq<Patient>) {
    forall i :: 0 <= i < |docs| ==> CacheCoherent(docs[i])
  }

  /**
    Saving a loaded document back in place keeps the collection evolving as
    it may, when the document kept its ids and only grew its collections.
  */
  lemma SaveInPlace(docs: seq<Patient>, i: nat, d: Patient)
    requires i < |docs|
    requires d.storageId == docs[i].storageId && d.patientId == docs[i].patientId
    requires IsPrefix(docs[i].medicalHistory, d.medicalHistory)
    requires IsPrefix(docs[i].appointments, d.appointments)
    requires IsPrefix(docs[i].riskAssessments, d.riskAssessments)
    ensures Evolves(docs, docs[i := d])
    ensures AllCoherent(docs) && CacheCoherent(d) ==> AllCoherent(docs[i := d])
  {
  }

  /** The patient collection. */
  class PatientCollection {
    var docs: seq<Patient>

    /** Every stored document keeps its cached risk fields in step with its assessment trail. */
    ghost predicate Valid()
      reads this
    {
      AllCoherent(docs)
    }

    constructor ()
      ensures Valid() && docs == []
    {
      docs := [];
    }
  }
}
