/** Witnessed acceptance: the target selection and the fail-closed verdict of
    src/claim_plane/acceptance_witness.py, and the classification at the end of
    `run_oss_pilot_acceptance` in src/claim_plane/oss_pilot.py. */
module Witness {
  import Execution
  import opened Json
  import opened Sums
  import opened AddedLines
  import ConfigText
  import DiffText

  // ----- what must be witnessed -----

  datatype Span = Span(first: nat, last: nat)

  /** One changed test file: definitions with their line spans, before and after, and its diff.
      `unparsable` stands for a syntax error on either side. */
  datatype TestFile = TestFile(unparsable: bool, official: map<string, Span>, base: set<string>, diff: string)

  datatype Spec = Spec(required: bool, targets: set<string>, errors: nat)

  /** `build_acceptance_witness_spec`. */
  method BuildSpec(files: seq<TestFile>) returns (spec: Spec)
    ensures spec.targets == set f, id | f in files && !f.unparsable && id in f.official && IsTarget(f, id) :: id
    ensures spec.errors == 0 <==> forall f :: f in files ==> !f.unparsable
    ensures spec.required <==> spec.targets != {} || spec.errors > 0
  {
    hide IsTarget;
    var targets: set<string>, errors := {}, 0;
    for k := 0 to |files|
      invariant targets == set f, id | f in files[..k] && !f.unparsable && id in f.official && IsTarget(f, id) :: id
      invariant errors == 0 <==> forall f :: f in files[..k] ==> !f.unparsable
    {
      var file := files[k];
      assert files[..k + 1] == files[..k] + [file];
      if file.unparsable {
        errors := errors + 1;
        continue;
      }
      var touched := ReadAddedLines(file.diff);
      var here := set id | id in file.official && (id !in file.base || Touched(file.official[id], touched));
      assert here == set id | id in file.official && IsTarget(file, id) by { TargetsOfFile(file); }
      targets := targets + here;
    }
    assert files[..|files|] == files;
    spec := Spec(targets != {} || errors > 0, targets, errors);
  }

  predicate Touched(span: Span, lines: set<nat>) { exists n :: n in lines && span.first <= n <= span.last }

  /** A test that is new, or that spans a line the diff reader reports. */
  predicate IsTarget(f: TestFile, id: string)
    requires id in f.official
  {
    id !in f.base || Touched(f.official[id], Scan(ConfigText.SplitLines(f.diff), 0, false))
  }

  /** The diff of a file as git prints it; nothing for a file without changes. */
  datatype Printed = Printed(preamble: seq<string>, hunks: seq<Hunk>)

  /** The file's diff is this one, and every hunk of it is readable as it is cut. */
  ghost predicate ReadableDiff(f: TestFile, p: Printed) {
    if p.hunks == [] && p.preamble == [] then f.diff == ""
    else
      && f.diff == DiffText.FileDiff(p.preamble, p.hunks) && DiffText.IsPreamble(p.preamble)
      && DiffText.TameHunks(p.hunks) && InOrder(p.hunks, 0) && AllReadable(DiffText.CutHunks(p.hunks))
  }

  /** A test that is new, or that spans a line which was added in truth. */
  predicate TrulyTouched(f: TestFile, p: Printed, id: string)
    requires id in f.official
  {
    id !in f.base || Touched(f.official[id], TrueAdded(p.hunks))
  }

  lemma TargetIsTruth(f: TestFile, p: Printed, id: string)
    requires ReadableDiff(f, p) && id in f.official
    ensures IsTarget(f, id) <==> TrulyTouched(f, p, id)
  {
    hide DiffText.TameHunks, AllReadable, DiffText.CutHunks, InOrder, Touched, DiffText.IsPreamble;
    if p.hunks == [] && p.preamble == [] {
      NothingRead();
    } else {
      DiffText.AddedLinesExactly(p.preamble, p.hunks);
    }
  }

  lemma NothingRead()
    ensures Scan(ConfigText.SplitLines(""), 0, false) == {} == TrueAdded([])
  {
  }

  /** With readable diffs the targets are exactly the new tests and those that span an added line. */
  lemma TargetsAreTruth(files: seq<TestFile>, printed: seq<Printed>)
    requires |printed| == |files| && forall i :: 0 <= i < |files| ==> ReadableDiff(files[i], printed[i])
    ensures (set f, id | f in files && !f.unparsable && id in f.official && IsTarget(f, id) :: id)
         == set i, id | 0 <= i < |files| && !files[i].unparsable && id in files[i].official
                        && TrulyTouched(files[i], printed[i], id) :: id
  {
    hide ReadableDiff, IsTarget, TrulyTouched;
    forall i, id | 0 <= i < |files| && id in files[i].official
      ensures IsTarget(files[i], id) <==> TrulyTouched(files[i], printed[i], id)
    {
      TargetIsTruth(files[i], printed[i], id);
    }
    var read := set f, id | f in files && !f.unparsable && id in f.official && IsTarget(f, id) :: id;
    var truth := set i, id | 0 <= i < |files| && !files[i].unparsable && id in files[i].official
                             && TrulyTouched(files[i], printed[i], id) :: id;
    forall id | id in read ensures id in truth {
      var f :| f in files && !f.unparsable && id in f.official && IsTarget(f, id);
      var i :| 0 <= i < |files| && files[i] == f;
    }
    forall id | id in truth ensures id in read {
      var i :| 0 <= i < |files| && !files[i].unparsable && id in files[i].official
          && TrulyTouched(files[i], printed[i], id);
      assert files[i] in files;
    }
  }

  lemma TargetsOfFile(f: TestFile)
    ensures (set id | id in f.official
               && (id !in f.base || Touched(f.official[id], Scan(ConfigText.SplitLines(f.diff), 0, false))))
         == set id | id in f.official && IsTarget(f, id)
  {
  }

  // ----- what was witnessed -----

  /** `wasxfail` is empty unless the report carries a reason. */
  datatype PhaseReport = PhaseReport(outcome: string, wasxfail: string)

  type Phases = map<string, PhaseReport>

  datatype Session = Session(collected: seq<string>, reports: map<string, Phases>)

  datatype Log = NoFile | Unreadable | Sessions(sessions: seq<Session>)

  /** `_target_matches`: the test itself or one of its parameterised instances. */
  predicate TargetMatches(target: string, node: string) { node == target || StartsWith(node, target + "[") }

  /** Nodes in order of first collection, without repetition. */
  function AddNodes(nodes: seq<string>, more: seq<string>): seq<string>
    decreases |more|
  {
    if more == [] then nodes
    else AddNodes(if more[0] in nodes then nodes else nodes + [more[0]], more[1..])
  }

  function Nodes(sessions: seq<Session>): seq<string> {
    if sessions == [] then [] else AddNodes(Nodes(sessions[..|sessions| - 1]), sessions[|sessions| - 1].collected)
  }

  function PhasesOf(reports: map<string, Phases>, node: string): Phases {
    if node in reports then reports[node] else map[]
  }

  /** Later sessions override earlier ones, node by node and phase by phase. */
  function Reports(sessions: seq<Session>): map<string, Phases> {
    if sessions == [] then map[]
    else
      var before, last := Reports(sessions[..|sessions| - 1]), sessions[|sessions| - 1].reports;
      map node | node in before.Keys + last.Keys :: PhasesOf(before, node) + PhasesOf(last, node)
  }

  datatype NodeState = Skipped | Failed | Passed | NotExecuted

  function StateOf(phases: Phases): NodeState {
    if exists p :: p in phases && phases[p].outcome == "skipped" then Skipped
    else if exists p :: p in phases && phases[p].outcome == "failed" then Failed
    else if "call" in phases && phases["call"].outcome == "passed" && phases["call"].wasxfail == "" then Passed
    else NotExecuted
  }

  function Matching(nodes: seq<string>, target: string): seq<string> {
    if nodes == [] then []
    else (if TargetMatches(target, nodes[0]) then [nodes[0]] else []) + Matching(nodes[1..], target)
  }

  datatype Totals = Totals(collected: int, executed: int, passed: int, failed: int, skipped: int, missing: int)

  datatype State = NotRequired | Incomplete | HasFailed | Verified

  datatype Assessment = Assessment(state: State, totals: Totals)

  // ----- counting -----

  function InState(reports: map<string, Phases>, state: NodeState): string -> int {
    (node: string) => if StateOf(PhasesOf(reports, node)) == state then 1 else 0
  }

  function Executed(reports: map<string, Phases>): string -> int {
    (node: string) =>
      var phases := PhasesOf(reports, node);
      if StateOf(phases) == Passed || (StateOf(phases) == Failed && "call" in phases) then 1 else 0
  }

  /** The counters of the matching nodes of one target. */
  function TargetTotals(nodes: seq<string>, reports: map<string, Phases>, target: string): Totals {
    var matches := Matching(nodes, target);
    Totals(|matches|, SumOf(matches, Executed(reports)), SumOf(matches, InState(reports, Passed)),
           SumOf(matches, InState(reports, Failed)), SumOf(matches, InState(reports, Skipped)),
           if matches == [] then 1 else 0)
  }

  function Plus(a: Totals, b: Totals): Totals {
    Totals(a.collected + b.collected, a.executed + b.executed, a.passed + b.passed, a.failed + b.failed,
           a.skipped + b.skipped, a.missing + b.missing)
  }

  const NOTHING := Totals(0, 0, 0, 0, 0, 0)

  function AllTotals(nodes: seq<string>, reports: map<string, Phases>, targets: seq<string>): Totals {
    if targets == [] then NOTHING
    else Plus(AllTotals(nodes, reports, targets[..|targets| - 1]), TargetTotals(nodes, reports, targets[|targets| - 1]))
  }

  /** The inner loop over the matching nodes. */
  method CountTarget(nodes: seq<string>, reports: map<string, Phases>, target: string) returns (t: Totals)
    ensures t == TargetTotals(nodes, reports, target)
  {
    hide StateOf, Matching;
    var matches := Matching(nodes, target);
    if matches == [] { return NOTHING.(missing := 1); }
    t := NOTHING.(collected := |matches|);
    for k := 0 to |matches|
      invariant t.collected == |matches| && t.missing == 0
      invariant t.executed == SumOf(matches[..k], Executed(reports))
      invariant t.passed == SumOf(matches[..k], InState(reports, Passed))
      invariant t.failed == SumOf(matches[..k], InState(reports, Failed))
      invariant t.skipped == SumOf(matches[..k], InState(reports, Skipped))
    {
      var node := matches[k];
      assert matches[..k + 1] == matches[..k] + [node];
      SumOfConcat(matches[..k], [node], Executed(reports));
      SumOfConcat(matches[..k], [node], InState(reports, Passed));
      SumOfConcat(matches[..k], [node], InState(reports, Failed));
      SumOfConcat(matches[..k], [node], InState(reports, Skipped));
      var phases := PhasesOf(reports, node);
      match StateOf(phases) {
        case Skipped => t := t.(skipped := t.skipped + 1);
        case Failed => t := t.(failed := t.failed + 1, executed := t.executed + (if "call" in phases then 1 else 0));
        case Passed => t := t.(passed := t.passed + 1, executed := t.executed + 1);
        case NotExecuted =>
      }
    }
    assert matches[..|matches|] == matches;
  }

  /** `assess_acceptance_witness` */
  method Assess(required: bool, targets: seq<string>, errors: nat, log: Log) returns (a: Assessment)
    ensures a.state == NotRequired <==> !required
    ensures a.state == Verified <==> required && FullyWitnessed(targets, errors, log)
    ensures a.state == HasFailed <==> required && FailureWitnessed(targets, errors, log)
    ensures required && errors == 0 && targets != [] && log.Sessions? ==>
              a.totals == AllTotals(Nodes(log.sessions), Reports(log.sessions), targets)
  {
    hide AllTotals, TargetTotals, FullyWitnessed, FailureWitnessed, Nodes, Reports, Plus;
    if !required { return Assessment(NotRequired, NOTHING); }
    if errors > 0 || targets == [] || !log.Sessions? {
      NotWitnessed(targets, errors, log);
      return Assessment(Incomplete, NOTHING.(missing := |targets|));
    }
    var nodes, reports := Nodes(log.sessions), Reports(log.sessions);
    var totals := NOTHING;
    NoTotals(nodes, reports);
    for k := 0 to |targets|
      invariant totals == AllTotals(nodes, reports, targets[..k])
    {
      var t := CountTarget(nodes, reports, targets[k]);
      AddTarget(nodes, reports, targets[..k], targets[k]);
      assert targets[..k + 1] == targets[..k] + [targets[k]];
      totals := Plus(totals, t);
    }
    assert targets[..|targets|] == targets;
    var failed := totals.failed > 0;
    var incomplete := totals.missing > 0 || totals.skipped > 0 || totals.passed != totals.collected
        || totals.collected == 0;
    CountersDecide(targets, errors, log);
    a := Assessment(if failed then HasFailed else if incomplete then Incomplete else Verified, totals);
  }

  lemma NoTotals(nodes: seq<string>, reports: map<string, Phases>)
    ensures AllTotals(nodes, reports, []) == NOTHING
  {
  }

  lemma AddTarget(nodes: seq<string>, reports: map<string, Phases>, targets: seq<string>, target: string)
    ensures AllTotals(nodes, reports, targets + [target])
         == Plus(AllTotals(nodes, reports, targets), TargetTotals(nodes, reports, target))
  {
    assert (targets + [target])[..|targets|] == targets;
  }

  // ----- the verdict without counters -----

  /** A matching node that passed: it ran to a passing call, with no phase skipped or failed
      and no expected failure. */
  predicate NodePassed(phases: Phases) {
    && "call" in phases && phases["call"] == PhaseReport("passed", "")
    && forall p :: p in phases ==> phases[p].outcome != "skipped" && phases[p].outcome != "failed"
  }

  /** Some phase failed and none was skipped. */
  predicate NodeFailed(phases: Phases) {
    && (exists p :: p in phases && phases[p].outcome == "failed")
    && forall p :: p in phases ==> phases[p].outcome != "skipped"
  }

  predicate Witnessing(targets: seq<string>, errors: nat, log: Log) { errors == 0 && targets != [] && log.Sessions? }

  /** Every target has a collected node, and all its nodes passed. */
  ghost predicate FullyWitnessed(targets: seq<string>, errors: nat, log: Log) {
    Witnessing(targets, errors, log) &&
    forall target :: target in targets ==>
      && (exists node :: node in Nodes(log.sessions) && TargetMatches(target, node))
      && forall node :: node in Nodes(log.sessions) && TargetMatches(target, node) ==>
           NodePassed(PhasesOf(Reports(log.sessions), node))
  }

  ghost predicate FailureWitnessed(targets: seq<string>, errors: nat, log: Log) {
    Witnessing(targets, errors, log) &&
    exists target, node :: target in targets && node in Nodes(log.sessions) && TargetMatches(target, node)
      && NodeFailed(PhasesOf(Reports(log.sessions), node))
  }

  lemma NotWitnessed(targets: seq<string>, errors: nat, log: Log)
    requires !Witnessing(targets, errors, log)
    ensures !FullyWitnessed(targets, errors, log) && !FailureWitnessed(targets, errors, log)
  {
  }

  lemma StatesMean(phases: Phases)
    ensures StateOf(phases) == Passed <==> NodePassed(phases)
    ensures StateOf(phases) == Failed <==> NodeFailed(phases)
  {
  }

  lemma {:induction false} MatchingIs(nodes: seq<string>, target: string)
    ensures forall node :: node in Matching(nodes, target) <==> node in nodes && TargetMatches(target, node)
  {
    hide TargetMatches;
    if nodes != [] {
      MatchingIs(nodes[1..], target);
      assert nodes == [nodes[0]] + nodes[1..];
    }
  }

  /** Counting one state over some nodes: none, all, or in between. */
  lemma {:induction false} CountStates(matches: seq<string>, reports: map<string, Phases>, state: NodeState)
    ensures 0 <= SumOf(matches, InState(reports, state)) <= |matches|
    ensures SumOf(matches, InState(reports, state)) == |matches| <==>
              forall node :: node in matches ==> StateOf(PhasesOf(reports, node)) == state
    ensures SumOf(matches, InState(reports, state)) == 0 <==>
              forall node :: node in matches ==> StateOf(PhasesOf(reports, node)) != state
  {
    hide StateOf, PhasesOf;
    if matches != [] {
      CountStates(matches[1..], reports, state);
      assert matches == [matches[0]] + matches[1..];
    }
  }

  /** Every matching node is in one state, so the counters of the states do not exceed what
      was collected, and what was executed is what passed or failed in its call. */
  lemma {:induction false} StatesAddUp(matches: seq<string>, reports: map<string, Phases>)
    ensures SumOf(matches, InState(reports, Passed)) + SumOf(matches, InState(reports, Failed))
            + SumOf(matches, InState(reports, Skipped)) + SumOf(matches, InState(reports, NotExecuted)) == |matches|
    ensures SumOf(matches, InState(reports, Passed)) <= SumOf(matches, Executed(reports))
            <= SumOf(matches, InState(reports, Passed)) + SumOf(matches, InState(reports, Failed))
  {
    hide StateOf, PhasesOf;
    if matches != [] { StatesAddUp(matches[1..], reports); }
  }

  /** One target: what its counters say. */
  ghost predicate TargetGood(nodes: seq<string>, reports: map<string, Phases>, target: string) {
    && (exists node :: node in nodes && TargetMatches(target, node))
    && forall node :: node in nodes && TargetMatches(target, node) ==> NodePassed(PhasesOf(reports, node))
  }

  ghost predicate TargetBad(nodes: seq<string>, reports: map<string, Phases>, target: string) {
    exists node :: node in nodes && TargetMatches(target, node) && NodeFailed(PhasesOf(reports, node))
  }

  lemma TargetCounters(nodes: seq<string>, reports: map<string, Phases>, target: string)
    ensures var t := TargetTotals(nodes, reports, target);
            && 0 <= t.passed <= t.executed <= t.passed + t.failed && 0 <= t.failed && 0 <= t.skipped
            && 0 <= t.missing <= 1
            && t.passed + t.failed + t.skipped <= t.collected
            && (TargetGood(nodes, reports, target) <==> t.missing == 0 && t.passed == t.collected)
            && (t.missing == 0 ==> t.collected > 0)
            && (TargetBad(nodes, reports, target) <==> t.failed > 0)
  {
    hide StateOf, NodePassed, NodeFailed, TargetMatches, Executed, InState, PhasesOf;
    var matches := Matching(nodes, target);
    MatchingIs(nodes, target);
    StatesAddUp(matches, reports);
    CountStates(matches, reports, Passed);
    CountStates(matches, reports, Failed);
    CountStates(matches, reports, Skipped);
    CountStates(matches, reports, NotExecuted);
    forall node ensures StateOf(PhasesOf(reports, node)) == Passed <==> NodePassed(PhasesOf(reports, node))
                ensures StateOf(PhasesOf(reports, node)) == Failed <==> NodeFailed(PhasesOf(reports, node))
    {
      StatesMean(PhasesOf(reports, node));
    }
    if matches != [] { assert matches[0] in matches; }
  }

  /** All targets together. */
  lemma {:induction false} AllCounters(nodes: seq<string>, reports: map<string, Phases>, targets: seq<string>)
    ensures var t := AllTotals(nodes, reports, targets);
            && 0 <= t.passed <= t.executed <= t.passed + t.failed && 0 <= t.failed && 0 <= t.skipped && 0 <= t.missing
            && t.passed + t.failed + t.skipped <= t.collected
            && ((forall target :: target in targets ==> TargetGood(nodes, reports, target)) <==>
                  t.missing == 0 && t.passed == t.collected)
            && (targets != [] && t.missing == 0 ==> t.collected > 0)
            && ((exists target :: target in targets && TargetBad(nodes, reports, target)) <==> t.failed > 0)
  {
    hide TargetTotals, TargetGood, TargetBad;
    if targets != [] {
      var init, last := targets[..|targets| - 1], targets[|targets| - 1];
      AllCounters(nodes, reports, init);
      TargetCounters(nodes, reports, last);
      assert targets == init + [last];
      assert last in targets;
    }
  }

  /** The verdict from the counters is the verdict from the nodes. */
  lemma CountersDecide(targets: seq<string>, errors: nat, log: Log)
    requires Witnessing(targets, errors, log)
    ensures var t := AllTotals(Nodes(log.sessions), Reports(log.sessions), targets);
            && (FailureWitnessed(targets, errors, log) <==> t.failed > 0)
            && (FullyWitnessed(targets, errors, log) <==>
                  !(t.failed > 0) && !(t.missing > 0 || t.skipped > 0 || t.passed != t.collected || t.collected == 0))
            && t.passed + t.failed + t.skipped <= t.collected
  {
    hide NodePassed, NodeFailed, TargetMatches, Nodes, Reports, AllTotals, PhasesOf;
    AllCounters(Nodes(log.sessions), Reports(log.sessions), targets);
  }

  // ----- the classification of an evaluator run -----

  predicate Contains(s: string, part: string) { exists k :: 0 <= k <= |s| && StartsWith(s[k..], part) }

  /** `_classify_runner_failure` */
  function ClassifyFailure(stdout: string, stderr: string): Execution.Verdict {
    var combined := stdout + "\n" + stderr;
    if Contains(combined, "Repository safety check failed") then Execution.WorkspaceSafetyFailed
    else if Contains(combined, "RUNNING_TESTS...") then Execution.TestFailed
    else if Contains(combined, "INSTALLING_DEPENDENCIES...") then Execution.DependencyInstallFailed
    else if Contains(combined, "patch does not apply") || Contains(combined, "does not match index")
            || Contains(combined, "patch failed:") || Contains(combined, "with conflicts")
                then Execution.OfficialTestConflict
    else Execution.EvaluatorError
  }

  /** How the evaluator ended; before that, the workspace may not have come together. */
  datatype Ending =
    | AssetsMissing | OfficialPatchRejected | CandidateNotMaterialised | MergeConflict
    | StoppedByOperator | TimedOut | Finished(returncode: int, stdout: string, stderr: string)

  /** `run_oss_pilot_acceptance` from its preparation to the recorded classification. */
  method ClassifyRun(ending: Ending, required: bool, targets: seq<string>, errors: nat, log: Log)
    returns (verdict: Execution.Verdict)
    ensures verdict == Execution.Pass <==>
              ending.Finished? && ending.returncode == 0 && (!required || FullyWitnessed(targets, errors, log))
    ensures ending.Finished? && required
            && !FullyWitnessed(targets, errors, log) && !FailureWitnessed(targets, errors, log) ==>
              verdict == Execution.EvaluatorIncomplete
    ensures verdict == Execution.TestFailed ==>
              ending.Finished? && (ending.returncode != 0 || FailureWitnessed(targets, errors, log))
    ensures verdict != Execution.Contaminated
  {
    hide FullyWitnessed, FailureWitnessed, Contains;
    match ending {
      case AssetsMissing => verdict := Execution.EvaluatorError;
      case OfficialPatchRejected => verdict := Execution.OfficialTestConflict;
      case CandidateNotMaterialised => verdict := Execution.EvaluatorError;
      case MergeConflict => verdict := Execution.OfficialTestConflict;
      case StoppedByOperator => verdict := Execution.OperatorInterrupt;
      case TimedOut => verdict := Execution.Timeout;
      case Finished(returncode, stdout, stderr) =>
        var a := Assess(required, targets, errors, log);
        if a.state == Incomplete {
          verdict := Execution.EvaluatorIncomplete;
        } else if returncode == 0 && (a.state == Verified || a.state == NotRequired) {
          verdict := Execution.Pass;
        } else {
          verdict := ClassifyFailure(stdout, stderr);
        }
    }
  }
}
