/** The two rules that rewrite a validated verdict: the quality gate
    (`ForgeryAnalysis.verify_confidence`) and phase discipline
    (`enforce_phase_discipline`). Each is a pure function from verdict to
    verdict that touches only the classification, the confidence and the
    summary. */
module VerdictRules {
  import opened Text
  import opened Records
  import opened ResponseParser

  // ----- quality gate -----

  /** The default threshold a tampering score must exceed to count as hard
      evidence for the quality gate. */
  const DefaultThreshold: int := 90

  const LowQualitySummary: string :=
    "Image quality is low, but no digital manipulation or logical errors were found."

  /** The quality note mentions "low", ignoring case. */
  predicate IsLowQuality(v: VisualAnalysis)
  {
    Contains(Lower(v.qualityCheck), "low")
  }

  /** Reference form of the same test: three consecutive characters of the
      note spell l-o-w in any mix of cases. */
  ghost predicate LowAt(q: string, i: int)
  {
    0 <= i && i + 3 <= |q| && q[i] in "lL" && q[i + 1] in "oO" && q[i + 2] in "wW"
  }

  /** A logical contradiction, or visual tampering scored above `threshold`. */
  predicate HasHardEvidence(a: ForgeryAnalysis, threshold: int)
  {
    || a.logicalAnalysis.hasContradictions
    || (a.visualAnalysis.isTampered && a.visualAnalysis.confidenceScore > threshold)
  }

  /** Lower-casing and searching for "low" finds exactly the case-insensitive
      occurrences of the word, in both directions. */
  lemma LowQualityIff(v: VisualAnalysis)
    ensures IsLowQuality(v) <==> exists i :: LowAt(v.qualityCheck, i)
  {
    var q := v.qualityCheck;
    var lq := Lower(q);
    ContainsIff(lq, "low");
    forall i | 0 <= i && i + 3 <= |q|
      ensures OccursAt(lq, "low", i) <==> LowAt(q, i)
    {
      assert lq[i..i + 3] == [lq[i], lq[i + 1], lq[i + 2]];
    }
    if IsLowQuality(v) {
      var i :| OccursAt(lq, "low", i);
      assert LowAt(q, i);
    }
  }

  /** The quality gate: a low-quality capture with no hard evidence is forced
      to ORIGINAL with full confidence and the standard summary; any other
      verdict is returned unchanged. The sub-analyses are never modified. */
  function VerifyConfidence(a: ForgeryAnalysis, threshold: int): (r: ForgeryAnalysis)
    ensures r.visualAnalysis == a.visualAnalysis && r.logicalAnalysis == a.logicalAnalysis
    ensures (exists i :: LowAt(a.visualAnalysis.qualityCheck, i)) && !HasHardEvidence(a, threshold) ==>
      r.finalClassification == "ORIGINAL" && r.finalConfidence == 100 && r.summary == LowQualitySummary
    ensures !(exists i :: LowAt(a.visualAnalysis.qualityCheck, i)) || HasHardEvidence(a, threshold) ==>
      r == a
  {
    LowQualityIff(a.visualAnalysis);
    if IsLowQuality(a.visualAnalysis) && !HasHardEvidence(a, threshold) then
      a.(finalClassification := "ORIGINAL", summary := LowQualitySummary, finalConfidence := 100)
    else
      a
  }

  /** Applying the quality gate twice is applying it once. */
  lemma VerifyConfidenceIdempotent(a: ForgeryAnalysis, threshold: int)
    ensures VerifyConfidence(VerifyConfidence(a, threshold), threshold) == VerifyConfidence(a, threshold)
  {
  }

  /** Degraded capture alone never yields a forgery signal: a low-quality note
      with neither tampering nor contradictions ends ORIGINAL at confidence
      100, whatever the threshold. */
  lemma DegradedCaptureIsOriginal(a: ForgeryAnalysis, threshold: int)
    requires exists i :: LowAt(a.visualAnalysis.qualityCheck, i)
    requires !a.visualAnalysis.isTampered && !a.logicalAnalysis.hasContradictions
    ensures VerifyConfidence(a, threshold).finalClassification == "ORIGINAL"
    ensures VerifyConfidence(a, threshold).finalConfidence == 100
  {
  }

  /** At the default threshold of 90, a tampering score up to 90 is not hard
      evidence: a low-quality note without contradictions still ends ORIGINAL
      at confidence 100, even when tampering is reported at that score. */
  lemma DefaultThresholdGate(a: ForgeryAnalysis)
    requires exists i :: LowAt(a.visualAnalysis.qualityCheck, i)
    requires !a.logicalAnalysis.hasContradictions && a.visualAnalysis.confidenceScore <= DefaultThreshold
    ensures VerifyConfidence(a, DefaultThreshold).finalClassification == "ORIGINAL"
    ensures VerifyConfidence(a, DefaultThreshold).finalConfidence == 100
    ensures VerifyConfidence(a, DefaultThreshold).summary == LowQualitySummary
  {
  }

  // ----- phase discipline -----

  /** The visual score at or above which tampering counts as confirmed. */
  const ConfirmedScore: int := 85
  /** Confidence cap after an illegal FORGED is downgraded. */
  const DowngradeCap: int := 70
  /** Confidence cap when only logical evidence is present. */
  const LogicalOnlyCap: int := 75

  const DowngradeNote: string :=
    " Final decision downgraded: no confirmed visual tampering detected."

  function Min(x: int, y: int): int
  {
    if x <= y then x else y
  }

  /** The visual analysis reports tampering with a score of at least 85. */
  predicate HasVisualTampering(v: VisualAnalysis)
  {
    v.isTampered && v.confidenceScore >= ConfirmedScore
  }

  /** Contradictions are flagged but tampering is not confirmed. */
  predicate HasLogicalOnly(a: ForgeryAnalysis)
  {
    a.logicalAnalysis.hasContradictions && !HasVisualTampering(a.visualAnalysis)
  }

  /** FORGED is claimed without confirmed visual tampering. */
  predicate IllegalForged(a: ForgeryAnalysis)
  {
    a.finalClassification == "FORGED" && !HasVisualTampering(a.visualAnalysis)
  }

  /** Phase discipline: FORGED survives only with confirmed visual tampering,
      otherwise it becomes SUSPICIOUS at no more than 70 with the downgrade
      note appended; logic-only evidence yields SUSPICIOUS at no more than 75.
      Confidence never rises and the sub-analyses are never modified. */
  function EnforcePhaseDiscipline(a: ForgeryAnalysis): (r: ForgeryAnalysis)
    ensures r.visualAnalysis == a.visualAnalysis && r.logicalAnalysis == a.logicalAnalysis
    ensures r.finalClassification == "FORGED" ==> HasVisualTampering(r.visualAnalysis)
    ensures r.finalClassification == a.finalClassification || r.finalClassification == "SUSPICIOUS"
    ensures r.finalConfidence <= a.finalConfidence
    ensures IllegalForged(a) ==>
      && r.finalClassification == "SUSPICIOUS"
      && r.finalConfidence == Min(a.finalConfidence, DowngradeCap)
      && r.summary == a.summary + DowngradeNote
    ensures HasLogicalOnly(a) ==>
      r.finalClassification == "SUSPICIOUS" && r.finalConfidence <= LogicalOnlyCap
    ensures HasLogicalOnly(a) && !IllegalForged(a) ==> r.finalConfidence == Min(a.finalConfidence, LogicalOnlyCap)
    ensures !IllegalForged(a) ==> r.summary == a.summary
    ensures !IllegalForged(a) && !HasLogicalOnly(a) ==> r == a
  {
    var downgraded :=
      if IllegalForged(a) then
        a.(finalClassification := "SUSPICIOUS",
           finalConfidence := Min(a.finalConfidence, DowngradeCap),
           summary := a.summary + DowngradeNote)
      else a;
    if HasLogicalOnly(a) then
      downgraded.(finalClassification := "SUSPICIOUS",
                  finalConfidence := Min(downgraded.finalConfidence, LogicalOnlyCap))
    else downgraded
  }

  /** A second pass of phase discipline changes nothing; in particular the
      downgrade note is never appended twice. */
  lemma EnforcePhaseDisciplineIdempotent(a: ForgeryAnalysis)
    ensures EnforcePhaseDiscipline(EnforcePhaseDiscipline(a)) == EnforcePhaseDiscipline(a)
  {
  }

  /** A FORGED verdict with confirmed visual tampering passes through
      untouched, whatever the logical analysis says. */
  lemma ConfirmedForgedKept(a: ForgeryAnalysis)
    requires a.finalClassification == "FORGED" && HasVisualTampering(a.visualAnalysis)
    ensures EnforcePhaseDiscipline(a) == a
  {
  }

  // ----- both rules and the ERROR verdict -----

  /** Neither rule produces ERROR from a verdict that was not ERROR. */
  lemma RulesNeverIntroduceError(a: ForgeryAnalysis, threshold: int)
    requires a.finalClassification != "ERROR"
    ensures VerifyConfidence(a, threshold).finalClassification != "ERROR"
    ensures EnforcePhaseDiscipline(a).finalClassification != "ERROR"
  {
  }

  /** The parse fallback is a fixed point of both rules: its quality note
      "Error" does not mention "low", it is not FORGED and has no
      contradictions. */
  lemma RulesKeepFallback(message: string, threshold: int)
    ensures VerifyConfidence(Fallback(message), threshold) == Fallback(message)
    ensures EnforcePhaseDiscipline(Fallback(message)) == Fallback(message)
  {
  }

  // ----- a composed pass (not present in the service) -----

  /** The quality gate followed by phase discipline. The service defines both
      rules but never chains them; gate first, then discipline, is this
      model's choice. */
  function Reconcile(a: ForgeryAnalysis, threshold: int): (r: ForgeryAnalysis)
    ensures r.visualAnalysis == a.visualAnalysis && r.logicalAnalysis == a.logicalAnalysis
    ensures r.finalClassification == "FORGED" ==> HasVisualTampering(r.visualAnalysis)
    ensures HasLogicalOnly(a) ==> r.finalClassification == "SUSPICIOUS" && r.finalConfidence <= LogicalOnlyCap
    ensures (exists i :: LowAt(a.visualAnalysis.qualityCheck, i)) && !HasHardEvidence(a, threshold) ==>
      r.finalClassification == "ORIGINAL" && r.finalConfidence == 100 && r.summary == LowQualitySummary
  {
    EnforcePhaseDiscipline(VerifyConfidence(a, threshold))
  }

  /** A second reconciliation pass changes nothing: the gate decides on the
      sub-analyses alone, which neither rule alters, and when it fires it
      leaves nothing for phase discipline to do. */
  lemma ReconcileIdempotent(a: ForgeryAnalysis, threshold: int)
    ensures Reconcile(Reconcile(a, threshold), threshold) == Reconcile(a, threshold)
  {
  }
}
