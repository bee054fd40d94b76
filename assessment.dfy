/**
  The assessment step `runAssessmentAndSave`. The helper module that holds
  it is not part of this model, so the verdict comes from the environment's
  engine, and what the step does to the document is assumed: it appends the
  stamped verdict to `riskAssessments`, caches its level and probability in
  the `latest*` fields, and changes nothing else. The collection's coherence
  invariant rests on this assumption.
*/
module Assessment {
  import opened Records

  /** The history entry recording `v` as computed at time `now`. */
  function Stamp(v: Verdict, now: int): RiskAssessment {
    RiskAssessment(now, v.level, v.probability, v.reasons, v.recommendation)
  }

  /** The cached `latest*` fields mirror the last assessment, once there is one. */
  predicate CacheCoherent(p: Patient) {
    p.riskAssessments != [] ==>
      && p.latestRiskLevel == Some(p.riskAssessments[|p.riskAssessments| - 1].riskLevel)
      && p.latestRiskProbability == Some(p.riskAssessments[|p.riskAssessments| - 1].riskProbability)
  }

  /** `r` differs from `p` at most in the assessment trail and the cached fields. */
  predicate OnlyAssessmentChanged(p: Patient, r: Patient) {
    r.(riskAssessments := p.riskAssessments,
       latestRiskLevel := p.latestRiskLevel,
       latestRiskProbability := p.latestRiskProbability) == p
  }

  /** The document after `runAssessmentAndSave`, with the verdict computed from the document as it stands. */
  function Assessed(p: Patient, engine: Patient -> Verdict, now: int): (r: Patient)
    ensures OnlyAssessmentChanged(p, r)
    ensures |r.riskAssessments| == |p.riskAssessments| + 1
    ensures IsPrefix(p.riskAssessments, r.riskAssessments)
    ensures r.riskAssessments[|p.riskAssessments|] == Stamp(engine(p), now)
    ensures CacheCoherent(r)
  {
    var v := engine(p);
    p.(riskAssessments := p.riskAssessments + [Stamp(v, now)],
       latestRiskLevel := Some(v.level),
       latestRiskProbability := Some(v.probability))
  }
}
