/** From collected evidence to the two stacked release gates: `collect_validation_execution`
    and `evaluate_validation_release_gate` of src/claim_plane/validation.py over
    `evaluate_dogfood_release_gate` of src/claim_plane/dogfood.py. Rates are exact. */
module Gates {
  import opened Wrappers
  import opened Sums
  import opened Dogfood
  import opened Aggregate

  // ----- collecting one execution -----

  /** The parts of a run report that collection reads; missing texts are empty. */
  datatype Report = NoReport | Report(outcome: string, currentVerdict: string, evidence: string,
                                      recoveredAfterDenial: nat)

  const DELIVERED := {"MATCHES_VERIFIED_DELIVERY", "MATCHES_PASSING_ACCEPTANCE_RECHECK", "VERIFIED",
                      "VERIFIED_AFTER_RECHECK"}

  const EVALUATED := {"PASS", "TEST_FAILED", "CONTAMINATED"}

  /** `_guarded_delivery_accepted` */
  predicate GuardedDeliveryAccepted(report: Report, success: bool)
    requires report.Report?
  {
    var state := if report.currentVerdict != "" then report.currentVerdict else report.outcome;
    success && report.outcome == "VERIFIED" && state in DELIVERED
  }

  /** `collect_validation_execution`, from the acceptance classification (empty if there is
      none), its evidence digest, the report, the return code of the agent and the number of
      changed paths outside the final scope. */
  function Collect(arm: Arm, classification: string, acceptanceEvidence: string, report: Report, returncode: int,
                   uncovered: nat): Evaluation
  {
    var success := classification == "PASS";
    var contaminated := classification == "CONTAMINATED";
    var guardedReport := report.Report? && arm == Guarded;
    var accepted := if guardedReport then GuardedDeliveryAccepted(report, success) else success;
    Evaluation(
      if contaminated then "CONTAMINATED" else if returncode == 0 then "COMPLETED" else "FAILED",
      classification in EVALUATED,
      success && !contaminated,
      accepted && !contaminated,
      if report.Report? then report.recoveredAfterDenial else 0,
      if guardedReport then uncovered else 0,
      if report.Report? && report.evidence != "" then report.evidence else acceptanceEvidence)
  }

  /** The result was recorded from some collected evidence. */
  ghost predicate Collected(r: Result) {
    exists classification, evidence, report, returncode, uncovered ::
      r.evaluation == Collect(r.arm, classification, evidence, report, returncode, uncovered)
  }

  // ----- arm metrics -----

  function Count(arm: Arm, p: Evaluation -> bool): Result -> int {
    (r: Result) => if r.arm == arm && r.evaluation.complete && p(r.evaluation) then 1 else 0
  }

  function Total(arm: Arm, f: Evaluation -> int): Result -> int {
    (r: Result) => if r.arm == arm && r.evaluation.complete then f(r.evaluation) else 0
  }

  function Any(): Evaluation -> bool { (e: Evaluation) => true }
  function Succeeded(): Evaluation -> bool { (e: Evaluation) => e.success }
  function Accepted(): Evaluation -> bool { (e: Evaluation) => e.accepted }

  /** `_arm_summary` of the matched results of one arm. */
  function ArmSummary(matched: seq<Result>, arm: Arm): Metrics {
    EvaluatedIsNatural(matched, arm);
    var evaluated := SumOf(matched, Count(arm, Any()));
    Metrics(evaluated, Rate(SumOf(matched, Count(arm, Succeeded())), evaluated),
            Rate(SumOf(matched, Count(arm, Accepted())), evaluated),
            SumOf(matched, Total(arm, (e: Evaluation) => e.falseBlocks)),
            SumOf(matched, Total(arm, (e: Evaluation) => e.missedMutations)))
  }

  lemma {:induction false} EvaluatedIsNatural(matched: seq<Result>, arm: Arm)
    ensures SumOf(matched, Count(arm, Any())) >= 0
  {
    if matched != [] { EvaluatedIsNatural(matched[1..], arm); }
  }

  /** The metrics of one arm that the gates read; there is no rate of nothing. */
  datatype Metrics = Metrics(evaluated: nat, successRate: Option<real>, deliveryRate: Option<real>, falseBlocks: int,
                             missed: int)

  /** `_rate` */
  function Rate(numerator: int, denominator: int): Option<real> {
    if denominator == 0 then None else Some(numerator as real / denominator as real)
  }

  /** What the gates read of a summary; an arm may be absent. */
  datatype Summary = Summary(complete: bool, bare: Option<Metrics>, guarded: Option<Metrics>)

  function Summarize(c: Coverage): Summary {
    Summary(c.complete, Some(ArmSummary(c.matched, BareCodex)), Some(ArmSummary(c.matched, Guarded)))
  }

  // ----- the gates -----

  datatype Status = Passed | Blocked | Incomplete

  datatype Finding =
    | IncompleteRunMatrix | MissingRequiredArms | MissingEvaluatedResults | GuardedSuccessRegression
    | GuardedTradeoffAcceptable | GuardedMissedMutations | GuardedFriction | GuardedDeliveryGap | GuardedEvidenceMissing

  /** Both arms are there with all their rates. */
  predicate Comparable(s: Summary) {
    && s.bare.Some? && s.bare.value.successRate.Some? && s.bare.value.deliveryRate.Some?
    && s.guarded.Some? && s.guarded.value.successRate.Some? && s.guarded.value.deliveryRate.Some?
  }

  function Drop(s: Summary): real
    requires Comparable(s)
  {
    s.bare.value.successRate.value - s.guarded.value.successRate.value
  }

  function Gain(s: Summary): real
    requires Comparable(s)
  {
    s.guarded.value.deliveryRate.value - s.bare.value.deliveryRate.value
  }

  /** `evaluate_dogfood_release_gate`. A negative threshold is refused. */
  method EvaluateDogfoodGate(s: Summary, maxDrop: real, minGain: real)
    returns (refused: bool, status: Status, findings: seq<Finding>)
    ensures refused <==> maxDrop < 0.0 || minGain < 0.0
    ensures !refused ==> (status == Blocked <==> Comparable(s) && Drop(s) > maxDrop && Gain(s) < minGain)
    ensures !refused ==> (status == Passed
                          <==> s.complete && Comparable(s) && !(Drop(s) > maxDrop && Gain(s) < minGain))
    ensures !refused ==> (IncompleteRunMatrix in findings <==> !s.complete)
    ensures !refused ==> (GuardedSuccessRegression in findings <==> status == Blocked)
  {
    refused, status, findings := false, Passed, [];
    if maxDrop < 0.0 || minGain < 0.0 {
      refused := true;
      return;
    }
    if !s.complete {
      status := Incomplete;
      findings := findings + [IncompleteRunMatrix];
    }
    if s.bare.None? || s.guarded.None? {
      status := Incomplete;
      findings := findings + [MissingRequiredArms];
    } else {
      var bare, guarded := s.bare.value, s.guarded.value;
      if bare.successRate.None? || guarded.successRate.None? || bare.deliveryRate.None? || guarded.deliveryRate.None? {
        status := Incomplete;
        findings := findings + [MissingEvaluatedResults];
      } else {
        var drop := bare.successRate.value - guarded.successRate.value;
        var gain := guarded.deliveryRate.value - bare.deliveryRate.value;
        if drop > maxDrop && gain < minGain {
          status := Blocked;
          findings := findings + [GuardedSuccessRegression];
        } else {
          findings := findings + [GuardedTradeoffAcceptable];
        }
      }
    }
  }

  function LacksEvidence(): Result -> int {
    (r: Result) => if r.evaluation.complete && r.arm == Guarded && r.evaluation.evidence == "" then 1 else 0
  }

  const MAX_DROP := 0.05
  const MIN_GAIN := 0.02

  /** The extra demands on the guarded arm. */
  predicate GuardedIsSound(s: Summary, results: seq<Result>, maxFalseBlocks: real, maxGap: real)
    requires Comparable(s)
  {
    var g := s.guarded.value;
    && g.missed == 0
    && (g.evaluated > 0 ==> g.falseBlocks as real <= maxFalseBlocks * g.evaluated as real)
    && g.successRate.value - g.deliveryRate.value <= maxGap
    && SumOf(results, LacksEvidence()) == 0
  }

  /** `evaluate_validation_release_gate` */
  method EvaluateValidationGate(s: Summary, results: seq<Result>, maxFalseBlocks: real, maxGap: real)
    returns (status: Status, findings: seq<Finding>)
    ensures status == Passed <==>
              s.complete && Comparable(s) && !(Drop(s) > MAX_DROP && Gain(s) < MIN_GAIN)
              && GuardedIsSound(s, results, maxFalseBlocks, maxGap)
    ensures status == Incomplete <==>
              !Comparable(s) || (!s.complete && !(Drop(s) > MAX_DROP && Gain(s) < MIN_GAIN))
  {
    var refused;
    refused, status, findings := EvaluateDogfoodGate(s, MAX_DROP, MIN_GAIN);
    if status != Incomplete && s.guarded.Some? {
      var g := s.guarded.value;
      var falseBlockRate := Rate(g.falseBlocks, g.evaluated);
      if g.evaluated > 0 { RateIsBounded(g.falseBlocks, g.evaluated, maxFalseBlocks); }
      if g.missed != 0 {
        status := Blocked;
        findings := findings + [GuardedMissedMutations];
      }
      if falseBlockRate.Some? && falseBlockRate.value > maxFalseBlocks {
        status := Blocked;
        findings := findings + [GuardedFriction];
      }
      if g.successRate.Some? && g.deliveryRate.Some? && g.successRate.value - g.deliveryRate.value > maxGap {
        status := Blocked;
        findings := findings + [GuardedDeliveryGap];
      }
      if SumOf(results, LacksEvidence()) != 0 {
        status := Blocked;
        findings := findings + [GuardedEvidenceMissing];
      }
    }
  }

  // ----- what the gates come to for collected results -----

  /** In every arm an accepted delivery is a success, and outside the guarded arm the two are
      the same. A contaminated execution is neither. */
  lemma AcceptedImpliesSuccess(r: Result)
    requires Collected(r)
    ensures r.evaluation.accepted ==> r.evaluation.success
    ensures r.arm != Guarded ==> r.evaluation.accepted == r.evaluation.success
    ensures r.evaluation.success ==> r.evaluation.complete
    ensures r.evaluation.outcome == "CONTAMINATED" ==> !r.evaluation.success && !r.evaluation.accepted
  {
  }

  lemma {:induction false} AcceptedAtMostSuccesses(matched: seq<Result>, arm: Arm)
    requires forall r :: r in matched ==> Collected(r)
    ensures var successes, accepted := SumOf(matched, Count(arm, Succeeded())), SumOf(matched, Count(arm, Accepted()));
            && 0 <= accepted <= successes <= SumOf(matched, Count(arm, Any()))
            && (arm != Guarded ==> accepted == successes)
  {
    if matched != [] {
      assert matched[0] in matched;
      AcceptedImpliesSuccess(matched[0]);
      AcceptedAtMostSuccesses(matched[1..], arm);
    }
  }

  lemma DivideBoth(a: int, b: int, n: int)
    requires a <= b && n > 0
    ensures a as real / n as real <= b as real / n as real
  {
  }

  lemma RateIsBounded(a: int, n: int, bound: real)
    requires n > 0
    ensures a as real / n as real <= bound <==> a as real <= bound * n as real
  {
    var q := a as real / n as real;
    assert q * n as real == a as real;
  }

  /** For collected results the gain is never more than the loss in success: a guarded arm that
      drops by more than the threshold has no accepted-delivery gain to make up for it. */
  lemma GainIsBounded(matched: seq<Result>, complete: bool)
    requires forall r :: r in matched ==> Collected(r)
    ensures var s := Summary(complete, Some(ArmSummary(matched, BareCodex)), Some(ArmSummary(matched, Guarded)));
            Comparable(s) ==> Gain(s) <= -Drop(s)
  {
    AcceptedAtMostSuccesses(matched, BareCodex);
    AcceptedAtMostSuccesses(matched, Guarded);
    var evaluated := SumOf(matched, Count(Guarded, Any()));
    if evaluated > 0 {
      DivideBoth(SumOf(matched, Count(Guarded, Accepted())), SumOf(matched, Count(Guarded, Succeeded())), evaluated);
    }
  }

  /** The compensation clause of the dogfood gate never applies: with thresholds that are not
      negative, a complete comparable matrix of collected results passes exactly when the drop
      is within the threshold. */
  lemma CompensationNeverApplies(matched: seq<Result>, complete: bool, maxDrop: real, minGain: real)
    requires forall r :: r in matched ==> Collected(r)
    requires maxDrop >= 0.0 && minGain >= 0.0
    ensures var s := Summary(complete, Some(ArmSummary(matched, BareCodex)), Some(ArmSummary(matched, Guarded)));
            Comparable(s) ==> (Drop(s) > maxDrop && Gain(s) < minGain <==> Drop(s) > maxDrop)
  {
    GainIsBounded(matched, complete);
  }

  const MAX_FALSE_BLOCKS := 0.25
  const MAX_DELIVERY_GAP := 0.05

  /** `build_validation_report`, aggregation and gate together. For collected results the
      release passes exactly when the results are the plan's cells, each once, both arms were
      evaluated, success dropped by at most 5 %, and the guarded arm meets its own demands. */
  method BuildValidationReport(plan: Plan, results: seq<Result>) returns (status: Status, findings: seq<Finding>)
    ensures UniqueIds(plan.entries) && (forall r :: r in results ==> Collected(r)) ==>
              var s := Summary(true, Some(ArmSummary(results, BareCodex)), Some(ArmSummary(results, Guarded)));
              (status == Passed <==>
                 && multiset(Bindings(results)) == multiset(PlanCells(plan))
                 && Comparable(s) && Drop(s) <= MAX_DROP
                 && GuardedIsSound(s, results, MAX_FALSE_BLOCKS, MAX_DELIVERY_GAP))
  {
    hide ArmSummary, Collected, Bindings, PlanCells, GuardedIsSound;
    var c := AggregateResults(plan, results);
    status, findings := EvaluateValidationGate(Summarize(c), results, MAX_FALSE_BLOCKS, MAX_DELIVERY_GAP);
    if c.complete && forall r :: r in results ==> Collected(r) {
      CompensationNeverApplies(results, true, MAX_DROP, MIN_GAIN);
    }
  }
}
