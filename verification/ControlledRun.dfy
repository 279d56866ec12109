/** How a controlled run ends: the outcome flow of `run_controlled_task` and the evidence gate,
    src/claim_plane/controlled_run.py. */
module ControlledRun {
  import opened Wrappers
  import Policy
  import opened Determinism

  /** How the agent and the final verification came to an end. */
  datatype Ending = Returned(code: int) | Interrupt | Timeout | Crash

  /** `_classify_outcome` */
  function Classify(code: int, c: Completion): Outcome {
    if code != 0 then Failed
    else if c.verified then Verified
    else if c.errors > 0 || c.violations > 0 then Rejected
    else ReviewRequired
  }

  datatype Gated = Gated(outcome: Outcome, error: Error, record: Record)

  /** `_apply_deterministic_gate`: a verified run with findings becomes one to be reviewed, and its
      record is built again. */
  function Gate(g: Given, i: Inputs, outcome: Outcome, error: Error): Option<Gated> {
    match BuildRecord(g, i, outcome, error)
    case None => None
    case Some(record) =>
      if outcome == Verified && record.findings != [] then
        var held := Error("deterministic_evidence_incomplete", Codes(record.findings));
        Some(Gated(ReviewRequired, held, BuildRecord(g, i, ReviewRequired, held).value))
      else Some(Gated(outcome, error, record))
  }

  /** From the ending of the run to its sealed outcome. */
  method FinishRun(g: Given, ending: Ending, i: Inputs) returns (r: Option<Gated>)
    ensures r.None? <==> exists f :: f in i.changedFiles && g.canonical(f).None?
    ensures r.Some? ==> Some(r.value.record) == BuildRecord(g, i, r.value.outcome, r.value.error)
    ensures r.Some? && ShaDigests(g) ==> (r.value.outcome == Verified <==> Delivered(g, ending, i))
    ensures r.Some? ==> (r.value.outcome == Verified ==> r.value.record.findings == [] && r.value.error == NoError)
    ensures r.Some? ==> (r.value.outcome == Cancelled <==> ending == Interrupt)
    ensures r.Some? ==> (r.value.outcome == TimedOut <==> ending == Timeout)
    ensures r.Some? ==> (r.value.outcome == Failed <==> ending == Crash || (ending.Returned? && ending.code != 0))
    ensures r.Some? ==> (r.value.outcome == Rejected <==> ending == Returned(0) && Refused(i))
    ensures r.Some? ==> Explains(r.value.outcome, r.value.error)
    ensures r.Some? && r.value.outcome == Rejected ==>
              r.value.error ==
                if i.completion.unsatisfied == [] then NoError
                else Error("task_obligation_unsatisfied", Listed(i.completion.unsatisfied))
  {
    hide BuildRecord, Gate, Evidence, CandidateOf, FindingsOf, DigestsOf, SnapshotsOf, Codes, Listed, ShaDigests;
    var outcome, error;
    match ending {
      case Returned(code) => outcome, error := Classify(code, i.completion), NoError;
      case Interrupt => outcome, error := Cancelled, Error("cancelled", {});
      case Timeout => outcome, error := TimedOut, Error("timeout", {});
      case Crash => outcome, error := Failed, Error("controlled_run_failed", {});
    }
    if outcome == Verified {
      if i.finalAction == Policy.Deny { outcome := Rejected; }
      else if i.finalAction == Policy.ReviewRequired { outcome := ReviewRequired; }
    }
    if error == NoError && outcome == Rejected && i.completion.unsatisfied != [] {
      error := Error("task_obligation_unsatisfied", Listed(i.completion.unsatisfied));
    }
    r := Gate(g, i, outcome, error);
    GateMeans(g, i, outcome, error);
    EvidenceVerifies(g, i);
    if ShaDigests(g) && outcome == Verified && r.Some? { EvidenceIs(g, i); }
  }

  function Listed(texts: seq<string>): set<string> { set t | t in texts }

  /** The errors that go with each outcome. */
  predicate Explains(outcome: Outcome, error: Error) {
    match outcome
    case Verified => error == NoError
    case ReviewRequired => error == NoError || error.code == "deterministic_evidence_incomplete"
    case Rejected => error == NoError || error.code == "task_obligation_unsatisfied"
    case Failed => error == NoError || error.code == "controlled_run_failed"
    case TimedOut => error == Error("timeout", {})
    case Cancelled => error == Error("cancelled", {})
  }

  /** The reason in the verdict of a finished run gives its outcome away. */
  lemma ReasonTellsTheOutcome(g: Given, i: Inputs, outcome: Outcome, error: Error)
    requires Explains(outcome, error)
    ensures var reason := ReasonCode(g, i, outcome, error);
            && (reason == "verified" <==> outcome == Verified)
            && (reason == "cancelled" <==> outcome == Cancelled)
            && (reason == "timeout" <==> outcome == TimedOut)
            && (reason == "runtime_failed" || reason == "controlled_run_failed" <==> outcome == Failed)
  {
    var c := g.tidy(i.classification);
    assert ("acceptance_" + c)[..11] == "acceptance_";
    Apart("acceptance_" + c);
  }

  lemma Apart(reason: string)
    requires |reason| >= 11 && reason[..11] == "acceptance_"
    ensures reason !in {"verified", "cancelled", "timeout", "runtime_failed", "controlled_run_failed"}
  {
    assert reason[0] == reason[..11][0] == 'a';
  }

  /** The run came back, and either its completion has errors or the policy denies the change. */
  predicate Refused(i: Inputs) {
    if i.completion.verified then i.finalAction == Policy.Deny
    else i.completion.errors > 0 || i.completion.violations > 0
  }

  /** The evidence of a verified delivery, in terms of the run alone. */
  ghost predicate Evidence(g: Given, i: Inputs) {
    && IsSha256(i.taskSha) && IsGitId(i.startGit.headCommit) && IsSha256(i.changeDigest)
    && i.changesBase == i.startGit.headCommit
    && (forall f, p :: f in i.changedFiles && g.canonical(f) == Some(p) ==> Covered(g, p, i.finalScope))
    && i.completion.verified && i.acceptancePassed
    && i.lifecycle.Lifecycle? && i.lifecycle.valid
  }

  lemma EvidenceVerifies(g: Given, i: Inputs)
    ensures Evidence(g, i) ==> i.completion.verified
  {
  }

  /** The agent returned 0, the policy clears the change and the evidence is complete. */
  ghost predicate Delivered(g: Given, ending: Ending, i: Inputs) {
    ending == Returned(0) && Policy.Clears(i.finalAction) && Evidence(g, i)
  }

  /** Verified findings are empty exactly when the evidence is complete. */
  lemma EvidenceIs(g: Given, i: Inputs)
    requires ShaDigests(g) && CandidateOf(g, i).Some?
    ensures Findings(g, i, Verified) == [] <==> Evidence(g, i)
  {
    hide IsSha256, IsGitId, Covered, ScopeFindings, CandidateOf;
    CandidateFields(g, i);
    ScopeEvidenceIs(g, i, CandidateOf(g, i).value.changedPaths);
  }

  lemma ScopeEvidenceIs(g: Given, i: Inputs, paths: seq<string>)
    requires CandidateOf(g, i).Some? && paths == CandidateOf(g, i).value.changedPaths
    ensures (paths == [] || (i.finalScope != [] && ScopeFindings(g, paths, i.finalScope) == []))
            <==> forall f, p :: f in i.changedFiles && g.canonical(f) == Some(p) ==> Covered(g, p, i.finalScope)
  {
    hide CandidateOf, ScopeFindings;
    ChangedPathsAre(g, i);
    ScopeIsClean(g, paths, i.finalScope);
    if paths != [] { assert paths[0] in paths; }
  }

  lemma CandidateFields(g: Given, i: Inputs)
    requires CandidateOf(g, i).Some?
    ensures var c := CandidateOf(g, i).value;
            c.taskSha == i.taskSha && c.baseCommit == i.startGit.headCommit && c.changeDigest == i.changeDigest
            && c.resultDigest == StateDigest(g, i.resultGit)
  {
  }

  lemma GateMeans(g: Given, i: Inputs, outcome: Outcome, error: Error)
    ensures Gate(g, i, outcome, error).None? <==> CandidateOf(g, i).None?
    ensures CandidateOf(g, i).None? <==> exists f :: f in i.changedFiles && g.canonical(f).None?
    ensures CandidateOf(g, i).Some? ==>
              var r := Gate(g, i, outcome, error).value;
              Some(r.record) == BuildRecord(g, i, r.outcome, r.error)
              && r.record.findings == Findings(g, i, r.outcome)
              && (if outcome == Verified && Findings(g, i, Verified) != []
                  then r.outcome == ReviewRequired
                      && r.error == Error("deterministic_evidence_incomplete", Codes(Findings(g, i, Verified)))
                  else r.outcome == outcome && r.error == error)
  {
    hide FindingsOf, ReasonCode, SnapshotsOf, DigestsOf, Codes;
    CanonicalPathsAre(g, i.changedFiles);
  }

  /** The gate changes no outcome but a verified one, and that one only to review. */
  lemma GateOnlyDowngrades(g: Given, i: Inputs, outcome: Outcome, error: Error)
    requires Gate(g, i, outcome, error).Some?
    ensures var r := Gate(g, i, outcome, error).value;
            r.outcome == outcome || (outcome == Verified && r.outcome == ReviewRequired)
  {
    GateMeans(g, i, outcome, error);
  }

  /** Passing the gate twice is passing it once. */
  lemma GateIsIdempotent(g: Given, i: Inputs, outcome: Outcome, error: Error)
    requires Gate(g, i, outcome, error).Some?
    ensures var r := Gate(g, i, outcome, error).value; Gate(g, i, r.outcome, r.error) == Some(r)
  {
    hide FindingsOf, ReasonCode, SnapshotsOf, DigestsOf, Codes, CandidateOf;
  }

  /** A downgrade keeps the findings of the first record if the completion is verified, as it is
      whenever the flow brings a verified run to the gate; without that it drops one. */
  lemma DowngradeKeepsFindings(g: Given, i: Inputs, outcome: Outcome, error: Error)
    requires Gate(g, i, outcome, error).Some?
    ensures Gate(g, i, outcome, error).value.record.findings == BuildRecord(g, i, outcome, error).value.findings
            <==> (outcome == Verified ==> i.completion.verified)
  {
    hide ReasonCode, SnapshotsOf, DigestsOf, Codes, CandidateOf, IsSha256, IsGitId, ScopeFindings;
    var c := CandidateOf(g, i).value;
    var d := DigestsOf(g, SnapshotsOf(g, i));
    if outcome == Verified && !i.completion.verified {
      LastFindings(g, i, c, d);
    }
  }

  lemma LastFindings(g: Given, i: Inputs, c: Candidate, d: Digests)
    requires !i.completion.verified
    ensures |FindingsOf(g, i, c, d, Verified)| > |FindingsOf(g, i, c, d, ReviewRequired)|
  {
  }

  /** Under the project's policy: a delivery needs the human gate off and, unless only observing,
      no changed path of high or critical risk. */
  lemma DeliveredUnderPolicy(g: Given, ending: Ending, i: Inputs, p: Policy.Preset, risk: Policy.RiskPolicy,
                             paths: seq<string>, glob: Policy.Glob)
    requires i.finalAction == Policy.ClassifyMany(p, risk, paths, glob)
    ensures Delivered(g, ending, i) <==>
              ending == Returned(0) && Evidence(g, i) && p != Policy.HumanGated
              && (p == Policy.Observe
                  || forall path :: path in paths ==>
                       Policy.LevelOf(risk, path, glob) !in {Policy.High, Policy.Critical})
  {
    hide Policy.LevelOf, Evidence;
    Policy.ClearedExactlyWhen(p, risk, paths, glob);
  }

  /** The stored form of any finished run verifies, whatever else is stored beside it. */
  method StoreRun(g: Given, ending: Ending, i: Inputs, runId: string, root: string, started: string, finished: string,
                  runtime: map<string, int>) returns (run: Option<Run>)
    ensures run.None? <==> exists f :: f in i.changedFiles && g.canonical(f).None?
    ensures run.Some? ==> Verifies(g, run.value) && run.value.inputs == i && run.value.runId == runId
    ensures run.Some? && ShaDigests(g) ==> (run.value.outcome == Verified <==> Delivered(g, ending, i))
  {
    hide BuildRecord, Delivered;
    var r := FinishRun(g, ending, i);
    if r.None? { return None; }
    run := Some(Run(runId, root, started, finished, runtime, i, r.value.outcome, r.value.error, Some(r.value.record)));
  }
}
