/**
  The transfer routes: moving a patient to another hospital with a summary of
  recent history, and the hospital-visit timeline.
*/
module Transfer {
  import opened Records
  import opened Seqs
  import opened Assessment
  import opened Store

  /** The fields of a transfer request body. */
  datatype TransferRequest = TransferRequest(
    newHospital: Option<string>,
    transferReason: Option<string>,
    receivingDoctor: Option<string>)

  // ---------------------------------------------------------------------------
  // The history summary
  // ---------------------------------------------------------------------------

  /** The summary line `hospital | diagnosis | YYYY-MM-DD` of one entry; the day is blank when undated. */
  function Render(e: HistoryEntry, formatDay: int -> string): (r: string)
    ensures IsPrefix(e.hospital + " |", r)
  {
    var day := match e.date
      case Some(d) => formatDay(d)
      case None => "";
    e.hospital + " | " + e.diagnosis + " | " + day
  }

  /** `concat([]).reverse().slice(0, 5)`: the last five entries at most, the last one first. */
  function RecentFirst(h: seq<HistoryEntry>): (r: seq<HistoryEntry>)
    ensures |r| == if |h| < 5 then |h| else 5
    ensures forall k :: 0 <= k < |r| ==> r[k] == h[|h| - 1 - k]
  {
    Reverse(h)[..if |h| < 5 then |h| else 5]
  }

  /** Every entry rendered, in order. */
  function RenderAll(es: seq<HistoryEntry>, formatDay: int -> string): (r: seq<string>)
  {
    seq(|es|, k requires 0 <= k < |es| => Render(es[k], formatDay))
  }

  /**
    The recent entries of a non-empty history, joined, open with the last
    entry's line, so they are neither empty nor the "No prior history" text.
  */
  lemma RecentOpensWithLast(h: seq<HistoryEntry>, formatDay: int -> string)
    ensures var joined := Join(RenderAll(RecentFirst(h), formatDay), "; ");
      && (h == [] ==> joined == "")
      && (h != [] ==> joined != "" && joined != "No prior history"
                      && IsPrefix(Render(h[|h| - 1], formatDay), joined))
  {
    if h != [] {
      var parts := RenderAll(RecentFirst(h), formatDay);
      var joined := Join(parts, "; ");
      var first := Render(h[|h| - 1], formatDay);
      var n := |h[|h| - 1].hospital|;
      assert parts[0] == first;
      assert joined[n + 1] == first[n + 1] == '|';
      assert '|' !in "No prior history";
    }
  }

  /** The transfer summary: the recent entries rendered and joined by "; ", or "No prior history". */
  function Summary(h: seq<HistoryEntry>, formatDay: int -> string): (r: string)
    ensures r == "No prior history" <==> h == []
  {
    RecentOpensWithLast(h, formatDay);
    var joined := Join(RenderAll(RecentFirst(h), formatDay), "; ");
    if joined == "" then "No prior history" else joined
  }

  /** Reference definition: the last `n` entries rendered, the last one first, each later one after a "; ". */
  function RecentLines(h: seq<HistoryEntry>, formatDay: int -> string, n: nat): string
    requires 1 <= n <= |h|
  {
    if n == 1 then Render(h[|h| - 1], formatDay)
    else RecentLines(h, formatDay, n - 1) + "; " + Render(h[|h| - n], formatDay)
  }

  /** The first `n` of the last entries' lines, last one first, joined, are the last `n` entries' lines. */
  lemma {:induction false} JoinedRecentLines(lines: seq<string>, h: seq<HistoryEntry>, formatDay: int -> string, n: nat)
    requires 1 <= n <= |lines| <= |h|
    requires forall k :: 0 <= k < |lines| ==> lines[k] == Render(h[|h| - 1 - k], formatDay)
    ensures Join(lines[..n], "; ") == RecentLines(h, formatDay, n)
    ensures n == |lines| ==> Join(lines, "; ") == RecentLines(h, formatDay, n)
  {
    assert n == |lines| ==> lines[..n] == lines;
    if n == 1 {
      assert lines[..1] == [lines[0]];
    } else {
      JoinedRecentLines(lines, h, formatDay, n - 1);
      assert lines[..n] == lines[..n - 1] + [lines[n - 1]];
      JoinSnoc(lines[..n - 1], lines[n - 1], "; ");
    }
  }

  /** The rendered recent entries, joined, are the lines of the last five entries at most, the last one first. */
  lemma JoinedRecentFirst(h: seq<HistoryEntry>, formatDay: int -> string)
    requires h != []
    ensures Join(RenderAll(RecentFirst(h), formatDay), "; ") == RecentLines(h, formatDay, if |h| < 5 then |h| else 5)
  {
    var recent := RecentFirst(h);
    var parts := RenderAll(recent, formatDay);
    var m := |parts|;
    assert m == |recent| == if |h| < 5 then |h| else 5;
    forall k | 0 <= k < m ensures parts[k] == Render(h[|h| - 1 - k], formatDay) {
      assert parts[k] == Render(recent[k], formatDay);
    }
    JoinedRecentLines(parts, h, formatDay, m);
  }

  /** The summary of a non-empty history is its rendered recent entries, joined. */
  lemma SummaryIsJoined(h: seq<HistoryEntry>, formatDay: int -> string)
    requires h != []
    ensures Summary(h, formatDay) == Join(RenderAll(RecentFirst(h), formatDay), "; ")
  {
    RecentOpensWithLast(h, formatDay);
  }

  /**
    The summary of a non-empty history is the lines of its last five entries
    at most, the last one first, separated by "; ".
  */
  lemma SummarySpec(h: seq<HistoryEntry>, formatDay: int -> string)
    requires h != []
    ensures Summary(h, formatDay) == RecentLines(h, formatDay, if |h| < 5 then |h| else 5)
  {
    SummaryIsJoined(h, formatDay);
    JoinedRecentFirst(h, formatDay);
  }

  /** The summary of a non-empty history opens with the line of its last entry. */
  lemma SummaryOpensWithLast(h: seq<HistoryEntry>, formatDay: int -> string)
    requires h != []
    ensures IsPrefix(Render(h[|h| - 1], formatDay), Summary(h, formatDay))
  {
    RecentOpensWithLast(h, formatDay);
  }

  // ---------------------------------------------------------------------------
  // The transfer
  // ---------------------------------------------------------------------------

  /** `transferReason || "Not specified"`: never blank, the given reason or the default. */
  function Reason(transferReason: Option<string>): (r: string)
    ensures r != ""
    ensures Truthy(transferReason) ==> r == transferReason.value
    ensures !Truthy(transferReason) ==> r == "Not specified"
  {
    OrElse(transferReason, "Not specified")
  }

  /** The document after the transfer's two pushes and the hospital change, before assessment. */
  function Transferred(p: Patient, newHospital: string, reason: Option<string>, doctor: Option<string>,
                       now: int, formatDay: int -> string): (r: Patient)
    ensures |r.medicalHistory| == |p.medicalHistory| + 2
    ensures IsPrefix(p.medicalHistory, r.medicalHistory)
    ensures var out := r.medicalHistory[|p.medicalHistory|];
      && out.hospital == p.currentHospital.GetOr("")
      && out.diagnosis == p.disease.GetOr("")
      && out.treatment == "Transfer out"
      && out.doctor == OrElse(doctor, "")
      && out.date == Some(now)
      && out.notes == "Transfer to " + newHospital + ". Reason: " + Reason(reason)
                      + ". Summary: " + Summary(p.medicalHistory, formatDay)
    ensures var inn := r.medicalHistory[|p.medicalHistory| + 1];
      && inn.hospital == newHospital
      && inn.diagnosis == p.disease.GetOr("")
      && inn.treatment == "Transfer in"
      && inn.doctor == OrElse(doctor, "")
      && inn.date == Some(now)
      && inn.notes == "Transferred from " + Interpolated(p.currentHospital) + ". Reason: " + Reason(reason)
    ensures r.currentHospital == Some(newHospital)
    ensures r.(medicalHistory := p.medicalHistory, currentHospital := p.currentHospital) == p
  {
    var summary := Summary(p.medicalHistory, formatDay);
    var out := HistoryEntry(p.currentHospital.GetOr(""), p.disease.GetOr(""), "Transfer out",
                            OrElse(doctor, ""), Some(now),
                            "Transfer to " + newHospital + ". Reason: " + Reason(reason) + ". Summary: " + summary);
    var inn := HistoryEntry(newHospital, p.disease.GetOr(""), "Transfer in",
                            OrElse(doctor, ""), Some(now),
                            "Transferred from " + Interpolated(p.currentHospital) + ". Reason: " + Reason(reason));
    p.(medicalHistory := p.medicalHistory + [out, inn], currentHospital := Some(newHospital))
  }

  /** A later transfer's summary opens with the "Transfer in" entry of the one before. */
  lemma NextSummaryOpensWithArrival(p: Patient, newHospital: string, reason: Option<string>, doctor: Option<string>,
                                    now: int, formatDay: int -> string)
    ensures var h := Transferred(p, newHospital, reason, doctor, now, formatDay).medicalHistory;
      && Summary(h, formatDay) != "No prior history"
      && IsPrefix(Render(h[|h| - 1], formatDay), Summary(h, formatDay))
      && h[|h| - 1].treatment == "Transfer in"
      && h[|h| - 1].hospital == newHospital
  {
    var h := Transferred(p, newHospital, reason, doctor, now, formatDay).medicalHistory;
    SummaryOpensWithLast(h, formatDay);
  }

  /**
    A transfer of a patient with no current hospital and no reason given:
    the departure is recorded at no hospital, both notes give the default
    reason, and the arrival's notes interpolate the missing hospital as
    "undefined".
  */
  lemma TransferWithoutOriginOrReason(p: Patient, newHospital: string, reason: Option<string>,
                                      doctor: Option<string>, now: int, formatDay: int -> string)
    requires p.currentHospital.None? && !Truthy(reason)
    ensures var h := Transferred(p, newHospital, reason, doctor, now, formatDay).medicalHistory;
      var n := |p.medicalHistory|;
      && !HasHospital(h[n])
      && h[n].notes == "Transfer to " + newHospital + ". Reason: " + "Not specified" + ". Summary: "
                       + Summary(p.medicalHistory, formatDay)
      && h[n + 1].notes == "Transferred from " + "undefined" + ". Reason: " + "Not specified"
  {
    assert Reason(reason) == "Not specified";
    assert Interpolated(p.currentHospital) == "undefined";
  }

  /**
    `POST /api/transfer/:patientId`: NotFound before a missing hospital is
    checked; neither error changes anything; otherwise push the two entries,
    move the patient, save and assess.
  */
  method Transfer(db: PatientCollection, id: string, req: TransferRequest, env: Env) returns (r: Reply<Patient>)
    requires db.Valid()
    modifies db
    ensures db.Valid() && Evolves(old(db.docs), db.docs)
    ensures match FindOne(old(db.docs), IdFilter(id, env.isObjectId), true)
      case None => r == NotFound && db.docs == old(db.docs)
      case Some(i) =>
        if !Truthy(req.newHospital) then r == InvalidArgument && db.docs == old(db.docs)
        else
          && db.docs == old(db.docs)[i := Assessed(
               Transferred(old(db.docs)[i], req.newHospital.value, req.transferReason, req.receivingDoctor,
                           env.now, env.formatDay),
               env.engine, env.now)]
          && r == Ok(db.docs[i])
  {
    var found := FindOne(db.docs, IdFilter(id, env.isObjectId), true);
    if found.None? {
      return NotFound;
    }
    if !Truthy(req.newHospital) {
      return InvalidArgument;
    }
    var i := found.value;
    var newHospital := req.newHospital.value;
    var stored := db.docs[i];
    var doc := stored;
    var prevHospital := doc.currentHospital;
    var summary := Summary(doc.medicalHistory, env.formatDay);
    doc := doc.(medicalHistory := doc.medicalHistory + [HistoryEntry(
      prevHospital.GetOr(""), doc.disease.GetOr(""), "Transfer out", OrElse(req.receivingDoctor, ""), Some(env.now),
      "Transfer to " + newHospital + ". Reason: " + Reason(req.transferReason) + ". Summary: " + summary)]);
    doc := doc.(medicalHistory := doc.medicalHistory + [HistoryEntry(
      newHospital, doc.disease.GetOr(""), "Transfer in", OrElse(req.receivingDoctor, ""), Some(env.now),
      "Transferred from " + Interpolated(prevHospital) + ". Reason: " + Reason(req.transferReason))]);
    doc := doc.(currentHospital := Some(newHospital));
    assert doc == Transferred(stored, newHospital, req.transferReason, req.receivingDoctor, env.now, env.formatDay);
    doc := Assessed(doc, env.engine, env.now);
    SaveInPlace(db.docs, i, doc);
    db.docs := db.docs[i := doc];
    r := Ok(doc);
  }

  // ---------------------------------------------------------------------------
  // The hospital-visit timeline
  // ---------------------------------------------------------------------------

  /** One item of the timeline. */
  datatype HistoryItem = HistoryItem(hospital: string, diagnosis: string, date: Option<int>, notes: string, doctor: string)

  /** The entry records a hospital. */
  predicate HasHospital(e: HistoryEntry) {
    e.hospital != ""
  }

  /** The fields the timeline shows of an entry. */
  function Project(e: HistoryEntry): HistoryItem {
    HistoryItem(e.hospital, e.diagnosis, e.date, e.notes, e.doctor)
  }

  /** Every entry projected, in order. */
  function ProjectAll(es: seq<HistoryEntry>): (r: seq<HistoryItem>)
  {
    seq(|es|, k requires 0 <= k < |es| => Project(es[k]))
  }

  /** The sort key of the timeline: the date, an undated item ranking last. */
  function DateOf(it: HistoryItem): Option<int> {
    it.date
  }

  /** The timeline: the projections of the entries with a hospital, latest date first. */
  function HistoryView(h: seq<HistoryEntry>): (r: seq<HistoryItem>)
    ensures SortedDesc(r, DateOf)
    ensures multiset(r) == multiset(ProjectAll(Filter(h, HasHospital)))
  {
    SortDesc(ProjectAll(Filter(h, HasHospital)), DateOf)
  }

  /**
    The timeline has one item per entry with a hospital, every item names a
    hospital, and its items are exactly the projections of those entries.
  */
  lemma HistoryViewSpec(h: seq<HistoryEntry>)
    ensures var r := HistoryView(h);
      && |r| == |Filter(h, HasHospital)|
      && (forall x :: x in r ==> x.hospital != "")
      && (forall x :: x in r <==> exists e :: e in h && HasHospital(e) && Project(e) == x)
  {
    var kept := Filter(h, HasHospital);
    var projected := ProjectAll(kept);
    var r := HistoryView(h);
    assert multiset(r) == multiset(projected);
    assert |r| == |multiset(r)| == |multiset(projected)| == |projected|;
    forall x ensures x in r <==> exists e :: e in h && HasHospital(e) && Project(e) == x {
      calc {
        x in r;
        x in multiset(r);
        x in multiset(projected);
        x in projected;
      }
      if x in projected {
        var k :| 0 <= k < |projected| && projected[k] == x;
        assert kept[k] in multiset(kept);
      }
      if e :| e in h && HasHospital(e) && Project(e) == x {
        assert e in multiset(h);
        assert e in multiset(kept);
        var k :| 0 <= k < |kept| && kept[k] == e;
        assert projected[k] == x;
      }
    }
  }

  /** `GET /api/transfer/:patientId/history`: NotFound for an absent or inactive patient, otherwise the timeline. */
  function History(docs: seq<Patient>, id: string, isObjectId: string -> bool): (r: Reply<seq<HistoryItem>>)
    ensures !r.InvalidArgument?
    ensures r.NotFound? <==> FindOne(docs, IdFilter(id, isObjectId), true).None?
    ensures r.Ok? ==> exists i :: 0 <= i < |docs| && docs[i].isActive && Selects(IdFilter(id, isObjectId), docs[i])
                                && r.value == HistoryView(docs[i].medicalHistory)
  {
    match FindOne(docs, IdFilter(id, isObjectId), true)
    case None => NotFound
    case Some(i) => Ok(HistoryView(docs[i].medicalHistory))
  }
}
