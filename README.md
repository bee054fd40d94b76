# CareNet patient routes, modelled in Dafny

CareNet is a patient-retention backend for Indian public-health programmes. It
keeps one document per patient. Each document holds the profile, engagement
signals, the patient's scheme enrollments and the current hospital. It also
holds three embedded collections: medical history, appointments, and the
trail of risk assessments. Two cached fields, `latestRiskLevel` and
`latestRiskProbability`, mirror the newest assessment.

This project models the three route files that read and change these
documents:

- `routes/patients.js`:
  - the default and high-risk listings;
  - lookup by id;
  - registration;
  - the allow-listed update;
  - soft deactivation;
  - explicit re-assessment;
  - appointment booking.
- `routes/schemes.js`:
  - rule-based recommendation of government aid schemes from a fixed catalogue;
  - enrollment.
- `routes/transfer.js`:
  - transferring a patient to another hospital, with a summary of recent history;
  - the hospital-visit timeline.

How the model is laid out:

- **Records** (`records.dfy`): the patient document and its parts, the route
  replies (`Ok`, `NotFound`, `InvalidArgument`), and the JavaScript idioms the
  routes lean on: truthiness, `x || fallback`, and the interpolation of a
  possibly undefined string.
- **Seqs** (`seqs.dfy`): `filter`, a stable descending sort, `reverse` and
  `join`, with their meaning proved. The sort is stated as "sorted and a
  permutation".
- **Assessment** (`assessment.dfy`): what `runAssessmentAndSave` is taken to
  do to a document. It appends one stamped verdict to `riskAssessments`,
  caches its level and probability, and changes nothing else. The verdict
  comes from an abstract risk engine. The helper's own code is not part of
  this model, so this effect is an assumption (see "Left out").
- **Store** (`store.dfy`): the collection, a class whose `docs` field the
  route methods update, and `findOne`, which returns the first match.
  - `idFilter` looks up an ObjectId-shaped id by `_id` and any other id by
    `patientId`.
  - The class invariant is that every document keeps its cached risk fields
    in step with its assessment trail.
  - Every route method also keeps the collection append-only. Ids never
    change, and the three embedded collections only grow at their end.
- **Patients**, **Schemes**, **Transfer**: one module per route file. Each
  route that changes the store is a module-level method that takes the
  collection (`db: PatientCollection`) and updates its `docs`. It works on a
  copy of the loaded document, writes the copy back, and is proved against a
  pure function that states the new document. The properties are proved
  about those functions.

The environment is the datatype `Env`. It bundles:

- the ObjectId shape test;
- the risk engine;
- the current time;
- the `YYYY-MM-DD` day formatter.

### Where the model follows the code rather than the usual reading of it

- A deactivated patient is not retrievable by `GET /api/patients/:id`,
  although soft deletion is commonly expected to keep a record reachable by
  direct lookup. The code adds `isActive != false` to the lookup, so the
  model's `Get` answers NotFound. Only `DELETE` finds inactive records.
- The transfer summary takes the last five entries of `medicalHistory` in
  array order, newest-appended first, not in date order. The code never
  looks at dates when it builds the summary, and neither does the model.
- `schemeEnrolled` is not tied to `enrolledSchemes` being non-empty. The
  code's update route can set either one alone, so no such invariant is
  stated.
- `enrolledSchemes` is an array, not a set. Enrollment pushes a name only
  when it is absent. The model proves enrollment keeps that array free of
  duplicates and keeps its order.

## Model

| member | source | states |
|---|---|---|
| Seqs.Filter | carenet/backend/routes/transfer.js:77-78 | the kept elements all pass the test, and each passing element is kept exactly as often as it occurs |
| Seqs.SortDesc | carenet/backend/routes/patients.js:23-25 | the result is in non-increasing key order, an absent key last, and is a permutation of the input |
| Seqs.Reverse | carenet/backend/routes/transfer.js:25-27 | same length, element k is element n-1-k of the input |
| Seqs.Join | carenet/backend/routes/transfer.js:33 | joining no parts gives the empty string, one part gives that part, and otherwise the result opens with the first part |
| Seqs.JoinSnoc | carenet/backend/routes/transfer.js:33 | joining one more part appends the separator and that part; with `Join`'s own contract (no parts give "", one part gives itself) this fixes the join of any parts |
| Assessment.Assessed | carenet/backend/routes/patients.js:80 | the assessment appends one verdict, stamped with the time, to the trail and keeps the old trail as a prefix; the cached level and probability equal the new last entry; no other field changes |
| Store.IdFilter | carenet/backend/routes/patients.js:9-14 | the query selects by `_id` exactly when the id is ObjectId-shaped, by `patientId` otherwise, never both |
| Store.PatientCollection.constructor | carenet/backend/routes/patients.js:4 | the patient collection starts empty, and then every document keeps its cached risk fields in step with its assessment trail |
| Store.FindOne | carenet/backend/routes/patients.js:99-103 | the answer is the first document matching the id (and the active filter, when asked for); no answer means no document matches |
| Patients.List | carenet/backend/routes/patients.js:16-26 | the listing holds exactly the active documents equal on each given risk level and disease, each as often as stored, in non-increasing risk probability |
| Patients.HighRisk | carenet/backend/routes/patients.js:32-38 | the high-risk listing holds exactly the active documents whose cached level is "High", in non-increasing risk probability |
| Patients.HighRiskIsListing | carenet/backend/routes/patients.js:32-37 | the high-risk listing equals the default listing asked for level "High" and no disease |
| Patients.Get | carenet/backend/routes/patients.js:97-104 | the lookup answers with an active document the id selects, and NotFound exactly when no active document is selected; it never rejects the request |
| Patients.NewDocument | carenet/backend/routes/patients.js:47-67 | the new document keeps every supplied value, the profile fields, the current hospital, the counters, both scheme fields, the history, the appointments and `aadhaarVerified`. Each missing one takes its default: 1, 5, false, [], 0 or []. `aadhaarLast4` is stored exactly when it is non-empty. The document is active and unassessed |
| Patients.Registered | carenet/backend/routes/patients.js:48-78 | registration saves the new document with at most its history changed. Without a truthy initial diagnosis the history is the supplied one. With one, a single entry follows the supplied history, with the current hospital, the diagnosis, an empty treatment and doctor, today's date and "Initial registration" |
| Patients.Create | carenet/backend/routes/patients.js:44-81 | registration appends exactly one document to the collection, the registered document after its first assessment |
| Patients.PatchKeysKeeps | carenet/backend/routes/patients.js:135-137 | walking any keys never writes an unlisted field: the ids, `isActive`, the three embedded collections and the cached risk fields |
| Patients.PatchKeysWritesProfile | carenet/backend/routes/patients.js:135-137 | each profile field takes the body's value if its key was walked and the body has it, and is unchanged otherwise |
| Patients.PatchKeysWritesCare | carenet/backend/routes/patients.js:135-137 | the disease, treatment stage, financial score and current hospital each take the body's value if their key was walked and the body has it, and are unchanged otherwise |
| Patients.PatchKeysWritesSchemes | carenet/backend/routes/patients.js:135-137 | `schemeEnrolled` and `enrolledSchemes` each take the body's value if their key was walked and the body has it, and are unchanged otherwise |
| Patients.PatchKeysWritesAadhaar | carenet/backend/routes/patients.js:135-137 | `aadhaarLast4` and `aadhaarVerified` each take the body's value if their key was walked and the body has it, and are unchanged otherwise |
| Patients.PatchKeysWritesEngagement | carenet/backend/routes/patients.js:135-137 | the follow-up calls, missed appointments, days since the last visit and hospital delay each take the body's value if their key was walked and the body has it, and are unchanged otherwise |
| Patients.PatchKeysSnoc | carenet/backend/routes/patients.js:135-137 | walking one more key is one more step of the `forEach` on the document walked so far |
| Patients.AllowedIsComplete | carenet/backend/routes/patients.js:117-134 | the allow-list names every updatable key |
| Patients.UpdateOnlyAllowed | carenet/backend/routes/patients.js:117-137 | an update writes each of the sixteen allow-listed fields exactly when the body has it. Ids, `isActive`, history, appointments, the assessment trail and the cached risk fields are never written. The forEach step reads only allow-listed keys of the body, so no other key it carries can reach the document |
| Patients.Patched | carenet/backend/routes/patients.js:117-137 | the document after the update's `forEach` differs from the stored one only in allow-listed fields |
| Patients.PatchAllowed | carenet/backend/routes/patients.js:117-137 | the `forEach` over the allow-list, run in place on the loaded document, yields the document of the allow-listed patch |
| Patients.UpdateSaves | carenet/backend/routes/patients.js:135-139 | writing the patched, reassessed document back keeps the ids, only grows the embedded collections, and keeps every document's cached risk fields coherent |
| Patients.Update | carenet/backend/routes/patients.js:110-141 | the loop over the allow-list yields the patched document, which is saved and assessed; NotFound changes nothing |
| Patients.Deactivated | carenet/backend/routes/patients.js:151 | deactivation clears `isActive` and changes nothing else |
| Patients.AfterDelete | carenet/backend/routes/patients.js:147-153 | delete leaves the collection as it was when no document, active or not, is selected. Otherwise exactly one selected document has `isActive` set to false, and nothing else in the collection changes |
| Patients.DeleteIdempotent | carenet/backend/routes/patients.js:149-152 | deleting twice leaves the collection as deleting once |
| Patients.Delete | carenet/backend/routes/patients.js:147-153 | the route replies "Patient deactivated" when some document is selected, NotFound otherwise, and the store becomes the collection after delete |
| Patients.Assess | carenet/backend/routes/patients.js:159-167 | re-assessment appends one verdict to the found active document; NotFound changes nothing |
| Patients.NewAppointment | carenet/backend/routes/patients.js:190-197 | a missing date is the current time; a missing or empty type, status or notes is "checkup", "scheduled" or ""; given values are kept |
| Patients.WithAppointment | carenet/backend/routes/patients.js:191-192 | booking appends exactly one appointment and changes nothing else; in particular, the assessment trail and cached risk fields stay as they were |
| Patients.AddAppointment | carenet/backend/routes/patients.js:183-200 | booking saves the document with one more appointment and runs no assessment; NotFound changes nothing |
| Schemes.CatalogueNamesDistinct | carenet/backend/routes/schemes.js:12-55 | no two catalogue entries share a name |
| Schemes.Recommend | carenet/backend/routes/schemes.js:65-89 | the route's list has at most six recommendations, each flagged enrolled exactly when the patient's list names it; `Schemes.RecommendSpec` states the rest |
| Schemes.RecommendWalksCatalogue | carenet/backend/routes/schemes.js:65-90 | the route's six guarded pushes are the catalogue walked in order, each place's rule pushing that place's own entry, followed by the `enrolled` annotation |
| Schemes.ChosenSpec | carenet/backend/routes/schemes.js:67-84 | the places chosen among the first i are each below i, strictly increasing, each one a place whose rule holds, and include every such place |
| Schemes.PushAllSelects | carenet/backend/routes/schemes.js:65-84 | walking the first i places pushes exactly the copies of the entries at the places whose rule holds, in catalogue order |
| Schemes.RecommendSpec | carenet/backend/routes/schemes.js:65-89 | the recommendation has one entry per place whose rule holds, at most six, in strictly increasing catalogue order, and a place is listed exactly when its rule holds for the patient. Every entry copies the name, benefit, eligibility and link of the catalogue entry at its place. `urgent` equals "latest level is High" for every entry. `enrolled` holds exactly when the patient's list names the scheme |
| Schemes.RecommendListsQualifying | carenet/backend/routes/schemes.js:65-89 | a scheme's name appears in the recommendation exactly when its rule holds for the patient |
| Schemes.RecommendNoDuplicates | carenet/backend/routes/schemes.js:65-89 | no scheme is recommended twice |
| Schemes.LowScoreGetsUniversalCoverAndStateCard | carenet/backend/routes/schemes.js:67-84 | a financial score below 4 brings both PM-JAY and the State health card |
| Schemes.PoorTuberculosisPatient | carenet/backend/routes/schemes.js:67-89 | a TB patient with score 2 and no enrollments is offered PM-JAY and Nikshay Poshan, both not enrolled |
| Schemes.RecommendFor | carenet/backend/routes/schemes.js:58-90 | NotFound exactly when no active document is selected; otherwise the recommendation for an active stored document that the id selects |
| Schemes.Enrolled | carenet/backend/routes/schemes.js:105-109 | enrollment sets `schemeEnrolled` and keeps the old list as a prefix. It appends the name exactly when absent, so the list names exactly the old names plus the new one. No other field changes |
| Schemes.EnrollIdempotent | carenet/backend/routes/schemes.js:105-109 | enrolling twice in a scheme is enrolling once |
| Schemes.EnrollKeepsNoDuplicates | carenet/backend/routes/schemes.js:106-109 | a list without duplicate names stays without duplicates |
| Schemes.ReenrollOnlyReassesses | carenet/backend/routes/schemes.js:105-111 | re-enrolling an enrolled patient in a listed scheme only re-assesses it |
| Schemes.Enroll | carenet/backend/routes/schemes.js:96-112 | NotFound is decided before a missing or empty name yields InvalidArgument, and neither changes anything; otherwise the enrolled document is saved and assessed |
| Transfer.Render | carenet/backend/routes/transfer.js:29-32 | a summary line opens with the entry's hospital and a separator bar |
| Transfer.RecentFirst | carenet/backend/routes/transfer.js:25-28 | the summary takes at most five entries, the last entry of the history first, then each one before it |
| Transfer.Summary | carenet/backend/routes/transfer.js:24-33 | the summary is "No prior history" exactly when the history is empty |
| Transfer.RecentOpensWithLast | carenet/backend/routes/transfer.js:24-33 | the rendered recent entries, joined, are empty for an empty history; otherwise they open with the last entry's line, so they are neither empty nor "No prior history" |
| Transfer.JoinedRecentLines | carenet/backend/routes/transfer.js:29-33 | joining the lines of the last n entries, last one first, gives the reference text: the last entry's line, then "; " and the line of each entry before it |
| Transfer.JoinedRecentFirst | carenet/backend/routes/transfer.js:24-33 | the rendered recent entries, joined, are the reference text for the last five entries at most |
| Transfer.SummaryIsJoined | carenet/backend/routes/transfer.js:24-33 | a non-empty history's summary is its recent entries' lines joined, never the fallback |
| Transfer.SummarySpec | carenet/backend/routes/transfer.js:24-33 | a non-empty history's summary is the line of its last entry, then "; " and the line of each entry before it, five lines at most |
| Transfer.SummaryOpensWithLast | carenet/backend/routes/transfer.js:24-33 | a non-empty history's summary opens with the line of its last entry |
| Transfer.Reason | carenet/backend/routes/transfer.js:41 | the reason in the notes is never blank: it is the given reason when that is truthy, and "Not specified" otherwise |
| Transfer.Transferred | carenet/backend/routes/transfer.js:23-51 | exactly two entries are appended after the old history, "Transfer out" at the previous hospital then "Transfer in" at the new one. Both carry the disease, the doctor and today's date. The out entry's notes name the new hospital, the reason (default "Not specified") and the summary of the history before the transfer. The in entry's notes name the previous hospital and the reason. The current hospital becomes the new one, and nothing else changes |
| Transfer.NextSummaryOpensWithArrival | carenet/backend/routes/transfer.js:24-50 | after a transfer, the next transfer's summary is not "No prior history" and opens with this transfer's "Transfer in" entry at the new hospital |
| Transfer.TransferWithoutOriginOrReason | carenet/backend/routes/transfer.js:23-49 | for a patient with no current hospital and no reason given, the departure entry has no hospital, so the timeline drops it. Both notes give "Not specified" as the reason, and the arrival's notes name the previous hospital as "undefined" (a current hospital stored as `null` is modelled as absent too; see "## Left out") |
| Transfer.Transfer | carenet/backend/routes/transfer.js:14-53 | NotFound is decided before a missing or empty hospital yields InvalidArgument, and neither changes anything; otherwise the transferred document is saved and assessed |
| Transfer.HistoryView | carenet/backend/routes/transfer.js:77-86 | the timeline is sorted by date, latest first, undated last, and is a permutation of the projections of the entries with a hospital |
| Transfer.HistoryViewSpec | carenet/backend/routes/transfer.js:77-86 | the timeline has one item per entry with a hospital, every item names a hospital, and its items are exactly the projections of those entries |
| Transfer.History | carenet/backend/routes/transfer.js:70-87 | NotFound exactly when no active document is selected; otherwise the timeline of an active stored document that the id selects |

## Left out

- The hospital filter of `GET /api/patients` is not modelled: a case-insensitive regular expression built from the query. `Patients.List` takes the risk-level and disease filters only.
- The risk engine behind `runAssessmentAndSave` is not part of this model. Its verdict comes from the abstract `engine` function of `Env`.
- `mongoose.Types.ObjectId.isValid` is the abstract predicate `isObjectId` of `Env`.
- Persistence, `findById` re-reads, audit logging, `req.user`, and the catch-all 500 error replies are left out. The model holds no I/O: each route's reply is the document as saved.
- Concurrent requests and partial saves are left out. Each route runs to completion on its own.
- Date parsing, `new Date(...)` and `toISOString().slice(0, 10)` are left out. Dates are integers, and the day formatter is the abstract `formatDay` of `Env`.
- The two `new Date()` reads of a transfer are modelled as one time `now`, so both entries carry the same date.
- `Patients.NewAppointment`: the body's date arrives already parsed as an integer. The code uses `new Date()` for any falsy raw date (`0`, `""`, `null`). The model uses `now` only for `None`, so `Some(0)` gives date `0`. The caller is assumed to pass `None` for every falsy raw date.
- Numeric fields are integers: `age`, `treatmentStage`, `financialScore`, the four engagement counters and the verdict's `riskProbability`. A JavaScript number can be fractional and the model cannot represent that: an age of 60.5 passes the code's `age > 60` test but has no counterpart in the model. These fields are ordinal scores, whole counts or whole years, so the model takes them to be whole. The routes themselves never read `riskProbability`; only the assessment helper sets it.
- `_id` and `patientId` generation are parameters of `Patients.Create`.
- Values of the wrong type in request bodies are left out: a number where a string is expected, and `null` in an update body. Update bodies use `None` for an undefined key only.
- `Patients.NewDocument` and `Transfer.Transferred`: a `null` in a registration body is taken as absent (`None`). For `currentHospital` this differs from the code: patients.js stores the `null`, and a later transfer's arrival notes then read "Transferred from null", where the model writes "Transferred from undefined".
- `Transfer.HistoryView`: the order of entries with equal dates is not stated. `Array.prototype.sort` with a date-difference comparator gives undated entries a NaN comparison; the model ranks them last.
- `Seqs.SortDesc` does not state stability, although its definition is stable.
- Absent history strings are represented as `""`. The summary reads them through `|| ""` and the timeline filter through truthiness, so there the two agree.
- `Transfer.HistoryView`: the timeline copies `diagnosis`, `notes` and `doctor` without a fallback. A transfer stores `diagnosis: patient.disease`, which is undefined for a patient registered without a disease. The code's timeline item then has no `diagnosis`; the model's has `""`.
- `Assessment.Assessed`: `utils/assessRisk` is not part of this model. That `runAssessmentAndSave` appends exactly one stamped verdict and caches it is an assumption about that helper. `Store.AllCoherent`, and with it `Store.PatientCollection.Valid()`, holds in the model because of this assumption.
