/**
  The aid-scheme routes: rule-based recommendation against a fixed catalogue,
  and enrollment.
*/
module Schemes {
  import opened Records
  import opened Assessment
  import opened Store

  /** A catalogue entry. */
  datatype Scheme = Scheme(name: string, benefit: string, eligibility: string, applicationLink: string, urgent: bool)

  const PmJay := Scheme(
    "Ayushman Bharat PM-JAY",
    "Health cover of ₹5 lakh per family per year for secondary and tertiary care.",
    "Families in bottom 40% as per SECC; no age or size cap.",
    "https://www.pmjay.gov.in/",
    false)

  const Nikshay := Scheme(
    "Nikshay Poshan Yojana (₹500/month)",
    "₹500 per month nutritional support for TB patients during treatment.",
    "All notified TB patients.",
    "https://tbcindia.gov.in/",
    false)

  const Vayoshri := Scheme(
    "Rashtriya Vayoshri Yojana",
    "Assisted living devices for senior citizens (hearing aids, wheelchairs, etc.).",
    "Senior citizens from BPL families, 60+ years.",
    "https://www.elderly.gov.in/",
    false)

  const Janani := Scheme(
    "Janani Suraksha Yojana",
    "Cash assistance for institutional delivery and maternal care.",
    "Pregnant women from BPL/SC/ST families.",
    "https://nhm.gov.in/index1.php?lang=1&level=1&sublinkid=819&lid=221",
    false)

  const Cghs := Scheme(
    "CGHS scheme",
    "Central government health scheme for comprehensive medical care.",
    "Central govt employees/pensioners; certain conditions for others.",
    "https://cghs.gov.in/",
    false)

  const StateCard := Scheme(
    "State health card",
    "State-specific health insurance and subsidized care.",
    "Varies by state; typically low-income families.",
    "https://www.india.gov.in/",
    false)

  /** The catalogue in the order the rules are tried. */
  const Catalogue: seq<Scheme> := [PmJay, Nikshay, Vayoshri, Janani, Cghs, StateCard]

  /** A place in the catalogue. */
  type Place = i: nat | i < 6

  /** Rule `i` of the catalogue: when scheme `Catalogue[i]` applies to `p`. */
  predicate Qualifies(i: Place, p: Patient) {
    if i == 0 then p.financialScore < 4
    else if i == 1 then p.disease == Some("TB")
    else if i == 2 then p.age.Some? && p.age.value > 60
    else if i == 3 then p.disease == Some("Maternal Care")
    else if i == 4 then p.financialScore < 6 && p.disease == Some("Diabetes")
    else p.financialScore < 6
  }

  /** The catalogue's places hold the six schemes in the order the route tries them. */
  lemma CatalogueOrder()
    ensures Catalogue[0] == PmJay && Catalogue[1] == Nikshay && Catalogue[2] == Vayoshri
    ensures Catalogue[3] == Janani && Catalogue[4] == Cghs && Catalogue[5] == StateCard
  {
  }

  /** No two catalogue entries share a name, so a name identifies its entry. */
  lemma CatalogueNamesDistinct()
    ensures forall i: Place, j: Place :: i != j ==> Catalogue[i].name != Catalogue[j].name
  {
    assert PmJay.name[0] == 'A' && Nikshay.name[0] == 'N' && Vayoshri.name[0] == 'R';
    assert Janani.name[0] == 'J' && Cghs.name[0] == 'C' && StateCard.name[0] == 'S';
  }

  /** A recommendation as the route returns it. */
  datatype Recommendation = Recommendation(
    name: string,
    benefit: string,
    eligibility: string,
    applicationLink: string,
    urgent: bool,
    enrolled: bool)

  /** The patient's cached verdict is "High". */
  predicate IsHighRisk(p: Patient) {
    p.latestRiskLevel == Some("High")
  }

  /** `list.map(s => ({ ...s, enrolled: enrolled.has(s.name) }))` */
  function MarkEnrolled(list: seq<Scheme>, enrolledSchemes: seq<string>): (r: seq<Recommendation>)
  {
    seq(|list|, k requires 0 <= k < |list| =>
      Recommendation(list[k].name, list[k].benefit, list[k].eligibility,
                     list[k].applicationLink, list[k].urgent, list[k].name in enrolledSchemes))
  }

  /** `if (holds) list.push({ ...s, urgent })` */
  function PushIf(list: seq<Scheme>, holds: bool, s: Scheme, urgent: bool): (r: seq<Scheme>)
    ensures |r| <= |list| + 1
  {
    if holds then list + [s.(urgent := urgent)] else list
  }

  /**
    The recommendation list as the route builds it: six guarded pushes of a
    copy of a catalogue entry with `urgent` overridden, then the `enrolled`
    annotation of every entry.
  */
  function Recommend(p: Patient): (r: seq<Recommendation>)
    ensures |r| <= 6
    ensures forall k :: 0 <= k < |r| ==> (r[k].enrolled <==> r[k].name in p.enrolledSchemes)
  {
    var high := IsHighRisk(p);
    var l1 := PushIf([], p.financialScore < 4, PmJay, high);
    var l2 := PushIf(l1, p.disease == Some("TB"), Nikshay, high);
    var l3 := PushIf(l2, p.age.Some? && p.age.value > 60, Vayoshri, high);
    var l4 := PushIf(l3, p.disease == Some("Maternal Care"), Janani, high);
    var l5 := PushIf(l4, p.financialScore < 6 && p.disease == Some("Diabetes"), Cghs, high);
    var list := PushIf(l5, p.financialScore < 6, StateCard, high);
    MarkEnrolled(list, p.enrolledSchemes)
  }

  /** The places among the first `i` for which `holds` is true, in catalogue order. */
  function Chosen(holds: Place -> bool, i: nat): seq<Place>
    requires i <= 6
  {
    if i == 0 then [] else Chosen(holds, i - 1) + (if holds(i - 1) then [i - 1] else [])
  }

  /** The chosen places: each once, in increasing order, and exactly those for which `holds` is true. */
  lemma {:induction false} ChosenSpec(holds: Place -> bool, i: nat)
    requires i <= 6
    ensures var cs := Chosen(holds, i);
      && |cs| <= i
      && (forall k :: 0 <= k < |cs| ==> cs[k] < i && holds(cs[k]))
      && (forall k, m :: 0 <= k < m < |cs| ==> cs[k] < cs[m])
      && (forall j: Place :: j < i && holds(j) ==> j in cs)
  {
    if i > 0 {
      ChosenSpec(holds, i - 1);
      var prev := Chosen(holds, i - 1);
      var cs := Chosen(holds, i);
      assert cs == prev + (if holds(i - 1) then [i - 1] else []);
      forall j: Place | j < i && holds(j) ensures j in cs {
        if j < i - 1 {
          var k :| 0 <= k < |prev| && prev[k] == j;
          assert cs[k] == j;
        } else {
          assert cs[|cs| - 1] == j;
        }
      }
    }
  }

  /** Reference definition: the places among the first `i` whose rule holds for `p`. */
  function Rules(p: Patient, i: nat): seq<Place>
    requires i <= 6
  {
    Chosen((j: Place) => Qualifies(j, p), i)
  }

  /** The copies of the catalogue entries at places `rs`, with `urgent` overridden. */
  function Entries(rs: seq<Place>, urgent: bool): (l: seq<Scheme>)
  {
    seq(|rs|, k requires 0 <= k < |rs| => Catalogue[rs[k]].(urgent := urgent))
  }

  /** One more place adds one more copy at the end. */
  lemma EntriesStep(rs: seq<Place>, j: Place, urgent: bool)
    ensures Entries(rs + [j], urgent) == Entries(rs, urgent) + [Catalogue[j].(urgent := urgent)]
  {
  }

  /** Reference definition: the catalogue walked in order for its first `i` places, each rule pushing its own entry. */
  function PushAll(p: Patient, i: nat): seq<Scheme>
    requires i <= 6
  {
    if i == 0 then [] else PushIf(PushAll(p, i - 1), Qualifies(i - 1, p), Catalogue[i - 1], IsHighRisk(p))
  }

  /** The route's six pushes are the catalogue's rules applied in order, each to its own entry. */
  lemma RecommendWalksCatalogue(p: Patient)
    ensures Recommend(p) == MarkEnrolled(PushAll(p, 6), p.enrolledSchemes)
  {
    var high := IsHighRisk(p);
    CatalogueOrder();
    assert PushAll(p, 1) == PushIf([], p.financialScore < 4, PmJay, high);
    assert PushAll(p, 2) == PushIf(PushAll(p, 1), p.disease == Some("TB"), Nikshay, high);
    assert PushAll(p, 3) == PushIf(PushAll(p, 2), p.age.Some? && p.age.value > 60, Vayoshri, high);
    assert PushAll(p, 4) == PushIf(PushAll(p, 3), p.disease == Some("Maternal Care"), Janani, high);
    assert PushAll(p, 5) == PushIf(PushAll(p, 4), p.financialScore < 6 && p.disease == Some("Diabetes"), Cghs, high);
    assert PushAll(p, 6) == PushIf(PushAll(p, 5), p.financialScore < 6, StateCard, high);
  }

  /** Walking the first `i` places pushes the entries at the places whose rule holds, in order. */
  lemma {:induction false} PushAllSelects(p: Patient, i: nat)
    requires i <= 6
    ensures PushAll(p, i) == Entries(Rules(p, i), IsHighRisk(p))
  {
    if i > 0 {
      PushAllSelects(p, i - 1);
      var before := Rules(p, i - 1);
      assert Rules(p, i) == before + (if Qualifies(i - 1, p) then [i - 1] else []);
      EntriesStep(before, i - 1, IsHighRisk(p));
    }
  }

  /**
    `GET /api/schemes/recommend/:patientId` on a found patient: one entry per
    place whose rule holds, in increasing catalogue order; each entry copies
    the catalogue entry at its place, with the patient's one `urgent` flag
    and its own `enrolled` flag.
  */
  lemma RecommendSpec(p: Patient)
    ensures var r := Recommend(p);
      var rs := Rules(p, 6);
      && |r| == |rs| <= 6
      && (forall k, m :: 0 <= k < m < |rs| ==> rs[k] < rs[m])
      && (forall j: Place :: j in rs <==> Qualifies(j, p))
      && (forall k :: 0 <= k < |r| ==>
            && r[k].name == Catalogue[rs[k]].name
            && r[k].benefit == Catalogue[rs[k]].benefit
            && r[k].eligibility == Catalogue[rs[k]].eligibility
            && r[k].applicationLink == Catalogue[rs[k]].applicationLink
            && r[k].urgent == IsHighRisk(p)
            && (r[k].enrolled <==> r[k].name in p.enrolledSchemes))
  {
    RecommendWalksCatalogue(p);
    PushAllSelects(p, 6);
    ChosenSpec((j: Place) => Qualifies(j, p), 6);
  }

  /** A scheme is recommended exactly when its rule holds for the patient. */
  lemma RecommendListsQualifying(p: Patient)
    ensures var r := Recommend(p);
      forall j: Place :: Qualifies(j, p) <==> exists k :: 0 <= k < |r| && r[k].name == Catalogue[j].name
  {
    RecommendSpec(p);
    CatalogueNamesDistinct();
    var r := Recommend(p);
    var rs := Rules(p, 6);
    forall j: Place ensures Qualifies(j, p) <==> exists k :: 0 <= k < |r| && r[k].name == Catalogue[j].name {
      if Qualifies(j, p) {
        var k :| 0 <= k < |rs| && rs[k] == j;
        assert r[k].name == Catalogue[j].name;
      }
      if k :| 0 <= k < |r| && r[k].name == Catalogue[j].name {
        assert rs[k] == j;
      }
    }
  }

  /** No scheme is recommended twice. */
  lemma RecommendNoDuplicates(p: Patient)
    ensures var r := Recommend(p);
      forall k, m :: 0 <= k < m < |r| ==> r[k].name != r[m].name
  {
    RecommendSpec(p);
    CatalogueNamesDistinct();
  }

  /** A financial score below 4 brings both the universal cover and the state health card. */
  lemma LowScoreGetsUniversalCoverAndStateCard(p: Patient)
    requires p.financialScore < 4
    ensures var r := Recommend(p);
      && (exists k :: 0 <= k < |r| && r[k].name == PmJay.name)
      && (exists k :: 0 <= k < |r| && r[k].name == StateCard.name)
  {
    RecommendListsQualifying(p);
    CatalogueOrder();
    assert Qualifies(0, p) && Qualifies(5, p);
  }

  /** A TB patient with a score of 2 and no schemes is offered universal cover and TB nutrition, neither enrolled. */
  lemma PoorTuberculosisPatient(p: Patient)
    requires p.financialScore == 2 && p.disease == Some("TB") && p.enrolledSchemes == []
    ensures var r := Recommend(p);
      && (exists k :: 0 <= k < |r| && r[k].name == PmJay.name && !r[k].enrolled)
      && (exists k :: 0 <= k < |r| && r[k].name == Nikshay.name && !r[k].enrolled)
  {
    RecommendSpec(p);
    RecommendListsQualifying(p);
    CatalogueOrder();
    assert Qualifies(0, p) && Qualifies(1, p);
  }

  /** The recommend route: NotFound for an absent or inactive patient, otherwise its recommendations. */
  function RecommendFor(docs: seq<Patient>, id: string, isObjectId: string -> bool): (r: Reply<seq<Recommendation>>)
    ensures !r.InvalidArgument?
    ensures r.NotFound? <==> FindOne(docs, IdFilter(id, isObjectId), true).None?
    ensures r.Ok? ==> exists i :: 0 <= i < |docs| && docs[i].isActive && Selects(IdFilter(id, isObjectId), docs[i])
                                && r.value == Recommend(docs[i])
  {
    match FindOne(docs, IdFilter(id, isObjectId), true)
    case None => NotFound
    case Some(i) => Ok(Recommend(docs[i]))
  }

  // ---------------------------------------------------------------------------
  // Enrollment
  // ---------------------------------------------------------------------------

  /** `schemeEnrolled = true`, and the name pushed unless it is already listed. */
  function Enrolled(p: Patient, name: string): (r: Patient)
    ensures r.schemeEnrolled
    ensures IsPrefix(p.enrolledSchemes, r.enrolledSchemes)
    ensures name in p.enrolledSchemes ==> r.enrolledSchemes == p.enrolledSchemes
    ensures name !in p.enrolledSchemes ==> |r.enrolledSchemes| == |p.enrolledSchemes| + 1
    ensures forall s :: s in r.enrolledSchemes <==> s in p.enrolledSchemes || s == name
    ensures r.(schemeEnrolled := p.schemeEnrolled, enrolledSchemes := p.enrolledSchemes) == p
  {
    var listed := if name in p.enrolledSchemes then p.enrolledSchemes else p.enrolledSchemes + [name];
    p.(schemeEnrolled := true, enrolledSchemes := listed)
  }

  /** Enrolling twice in one scheme is enrolling once. */
  lemma EnrollIdempotent(p: Patient, name: string)
    ensures Enrolled(Enrolled(p, name), name) == Enrolled(p, name)
  {
  }

  /** Enrollment never lists a scheme twice. */
  lemma EnrollKeepsNoDuplicates(p: Patient, name: string)
    requires NoDuplicates(p.enrolledSchemes)
    ensures NoDuplicates(Enrolled(p, name).enrolledSchemes)
  {
    var s := p.enrolledSchemes;
    if name !in s {
      var t := s + [name];
      forall i, j | 0 <= i < j < |t| ensures t[i] != t[j] {
        if j == |s| {
          assert t[i] == s[i];
        }
      }
    }
  }

  /** Re-enrolling in a scheme already listed only re-assesses the patient. */
  lemma ReenrollOnlyReassesses(p: Patient, name: string, engine: Patient -> Verdict, now: int)
    requires p.schemeEnrolled && name in p.enrolledSchemes
    ensures Assessed(Enrolled(p, name), engine, now) == Assessed(p, engine, now)
  {
    assert Enrolled(p, name) == p;
  }

  /**
    `POST /api/schemes/enroll/:patientId`: NotFound before a missing name is
    checked; neither error changes anything; otherwise enroll, save, assess.
  */
  method Enroll(db: PatientCollection, id: string, schemeName: Option<string>, env: Env) returns (r: Reply<Patient>)
    requires db.Valid()
    modifies db
    ensures db.Valid() && Evolves(old(db.docs), db.docs)
    ensures match FindOne(old(db.docs), IdFilter(id, env.isObjectId), true)
      case None => r == NotFound && db.docs == old(db.docs)
      case Some(i) =>
        if !Truthy(schemeName) then r == InvalidArgument && db.docs == old(db.docs)
        else
          && db.docs == old(db.docs)[i := Assessed(Enrolled(old(db.docs)[i], schemeName.value), env.engine, env.now)]
          && r == Ok(db.docs[i])
  {
    var found := FindOne(db.docs, IdFilter(id, env.isObjectId), true);
    if found.None? {
      return NotFound;
    }
    if !Truthy(schemeName) {
      return InvalidArgument;
    }
    var i := found.value;
    var name := schemeName.value;
    var doc := db.docs[i];
    doc := doc.(schemeEnrolled := true);
    if name !in doc.enrolledSchemes {
      doc := doc.(enrolledSchemes := doc.enrolledSchemes + [name]);
    }
    doc := Assessed(doc, env.engine, env.now);
    SaveInPlace(db.docs, i, doc);
    db.docs := db.docs[i := doc];
    r := Ok(doc);
  }
}
