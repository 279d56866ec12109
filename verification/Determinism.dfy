/** Deterministic records of controlled runs: src/claim_plane/determinism.py. */
module Determinism {
  import opened Wrappers
  import opened Json
  import opened Ordering
  import Policy
  import Paths

  // ----- the run -----

  datatype GitState = GitState(headCommit: string, headTree: string, branch: string, statusSha: string,
                               diffSha: string, untracked: map<string, string>)

  /** `unsatisfied` lists unmet task obligations. */
  datatype Completion = Completion(verified: bool, errors: nat, violations: nat, acceptancePassed: bool,
                                   unsatisfied: seq<string>)

  datatype Lifecycle = NoLifecycle | Lifecycle(valid: bool, head: Option<string>, events: nat)

  /** Everything a record is built from. */
  datatype Inputs = Inputs(
    taskSha: string, adapter: string, manifestDigest: string, handshake: map<string, string>,
    policyName: string, effectivePolicy: string, startGit: GitState, resultGit: GitState,
    changedFiles: seq<string>, changesBase: string, changeDigest: string,
    commands: seq<string>, acceptancePassed: bool, classification: string,
    completion: Completion, finalScope: seq<string>, lifecycle: Lifecycle, finalAction: Policy.Action)

  datatype Outcome = Verified | ReviewRequired | Rejected | Failed | TimedOut | Cancelled

  /** An error is its code and the codes or obligations it lists. */
  datatype Error = NoError | Error(code: string, details: set<string>)

  // ----- digests and paths -----

  datatype Candidate = Candidate(taskSha: string, baseCommit: string, baseTree: string, startDigest: string,
                                 resultDigest: string, changeDigest: string, changedPaths: seq<string>)

  datatype Verdict = Verdict(outcome: Outcome, reason: string, candidateDigest: string, inputDigest: string,
                             complete: bool, codes: set<string>)

  /** The mappings that are digested. */
  datatype Payload =
    | StatePayload(headCommit: string, headTree: string, statusSha: string, diffSha: string,
                   untracked: map<string, string>)
    | CandidatePayload(candidate: Candidate)
    | PolicyPayload(name: string, effective: string)
    | AdapterPayload(adapter: string, manifestDigest: string, handshake: map<string, string>)
    | AcceptancePayload(commands: seq<string>)
    | LifecyclePayload(available: bool, valid: bool, head: Option<string>, events: nat)
    | InputPayload(taskSha: string, candidateDigest: string, policyDigest: string, adapterDigest: string,
                   acceptanceDigest: string, lifecycleDigest: string)
    | VerdictPayload(verdict: Verdict)
    | RecordPayload(candidate: Candidate, candidateDigest: string, snapshots: Snapshots, digests: Digests,
                    inputDigest: string, findings: seq<Finding>, verdict: Verdict, verdictDigest: string)

  /** What is taken as given: the digest, canonical repository paths (None where a ValueError is
      raised), file-name globbing, and `strip().lower()`. */
  datatype Given = Given(digest: Payload -> string, canonical: string -> Option<string>,
                         glob: (string, string) -> bool, tidy: string -> string)

  predicate IsHexText(s: string) { forall i :: 0 <= i < |s| ==> '0' <= s[i] <= '9' || 'a' <= s[i] <= 'f' }

  predicate IsSha256(s: string) { |s| == 64 && IsHexText(s) }

  predicate IsGitId(s: string) { 40 <= |s| <= 64 && IsHexText(s) }

  /** Digests are SHA-256 texts. */
  ghost predicate ShaDigests(g: Given) { forall x :: IsSha256(g.digest(x)) }

  // ----- scope -----

  predicate EndsWith(s: string, suffix: string) { |s| >= |suffix| && s[|s| - |suffix|..] == suffix }

  /** `_scope_matches`; None for the ValueError of a selector that is no repository path. */
  function ScopeMatches(g: Given, path: string, selector: string): Option<bool> {
    var tree := EndsWith(selector, "/**");
    match g.canonical(if tree then selector[..|selector| - 3] else selector)
    case None => None
    case Some(clean) => Some(if tree then path == clean || StartsWith(path, clean + "/") else g.glob(path, clean))
  }

  /** `any(...)` over the selectors; a bad selector met before a match ends the search. */
  function Covered(g: Given, path: string, scope: seq<string>): bool {
    if scope == [] then false
    else
      match ScopeMatches(g, path, scope[0])
      case None => false
      case Some(b) => b || Covered(g, path, scope[1..])
  }

  /** A selector that ends in a slash and two stars matches exactly the paths at or below its directory,
      segment by segment. */
  lemma TreeSelectorMatches(g: Given, path: seq<string>, selector: string, dir: seq<string>)
    requires path != [] && Paths.Names(path) && dir != [] && Paths.Names(dir) && EndsWith(selector, "/**")
    requires g.canonical(selector[..|selector| - 3]) == Some(Paths.JoinParts(dir))
    ensures ScopeMatches(g, Paths.JoinParts(path), selector) == Some(dir <= path)
  {
    Paths.BelowIsPrefix(dir, path);
  }

  ghost predicate MatchesAt(g: Given, path: string, scope: seq<string>, k: nat)
    requires k < |scope|
  {
    ScopeMatches(g, path, scope[k]) == Some(true) && forall i :: 0 <= i < k ==> ScopeMatches(g, path, scope[i]).Some?
  }

  /** Covered means: some selector matches and all before it are well-formed. */
  lemma {:induction false} CoveredMeans(g: Given, path: string, scope: seq<string>)
    ensures Covered(g, path, scope) <==> exists k :: 0 <= k < |scope| && MatchesAt(g, path, scope, k)
  {
    hide ScopeMatches;
    if scope != [] {
      var rest := scope[1..];
      CoveredMeans(g, path, rest);
      assert forall i :: 1 <= i < |scope| ==> scope[i] == rest[i - 1];
      if Covered(g, path, scope) {
        if ScopeMatches(g, path, scope[0]) == Some(true) {
          assert MatchesAt(g, path, scope, 0);
        } else {
          var k :| 0 <= k < |rest| && MatchesAt(g, path, rest, k);
          assert MatchesAt(g, path, scope, k + 1);
        }
      }
      if k :| 0 <= k < |scope| && MatchesAt(g, path, scope, k) {
        if k > 0 {
          assert MatchesAt(g, path, rest, k - 1);
        }
      }
    }
  }

  // ----- the candidate -----

  /** `canonical_repository_path` on every changed file; None if one of them is refused. */
  function CanonicalPaths(g: Given, files: seq<string>): Option<seq<string>> {
    if files == [] then Some([])
    else
      match (g.canonical(files[0]), CanonicalPaths(g, files[1..]))
      case (Some(p), Some(rest)) => Some([p] + rest)
      case _ => None
  }

  function Dedupe(paths: seq<string>): seq<string> {
    if paths == [] then []
    else
      var init, last := Dedupe(paths[..|paths| - 1]), paths[|paths| - 1];
      if last in init then init else init + [last]
  }

  function StatePayloadOf(s: GitState): Payload {
    StatePayload(s.headCommit, s.headTree, s.statusSha, s.diffSha, s.untracked)
  }

  function StateDigest(g: Given, s: GitState): string { g.digest(StatePayloadOf(s)) }

  /** `build_candidate_identity` */
  function CandidateOf(g: Given, i: Inputs): Option<Candidate> {
    match CanonicalPaths(g, i.changedFiles)
    case None => None
    case Some(paths) =>
      Some(Candidate(i.taskSha, i.startGit.headCommit, i.startGit.headTree, StateDigest(g, i.startGit),
                     StateDigest(g, i.resultGit), i.changeDigest,
                     Sort(Dedupe(paths), PathOrder())))
  }

  // ----- findings -----

  datatype Finding =
    | TaskDigestMissing | BaseCommitMissing | ChangeDigestMissing | ResultStateMissing | PolicySnapshotMissing
    | AdapterSnapshotMissing | AcceptanceSnapshotMissing | BaseBindingMismatch | ScopeEvidenceMissing
    | ScopeBindingIncomplete(path: string) | CompletionNotVerified | AcceptanceNotPassed | LifecycleNotValid

  function Need(holds: bool, finding: Finding): seq<Finding> { if holds then [] else [finding] }

  function ScopeFindings(g: Given, paths: seq<string>, scope: seq<string>): seq<Finding> {
    if paths == [] then []
    else
      var init, last := paths[..|paths| - 1], paths[|paths| - 1];
      ScopeFindings(g, init, scope) + Need(Covered(g, last, scope), ScopeBindingIncomplete(last))
  }

  datatype Digests = Digests(policy: string, adapter: string, acceptance: string, lifecycle: string)

  function FindingsOf(g: Given, i: Inputs, c: Candidate, s: Digests, outcome: Outcome): seq<Finding> {
    BindingFindings(i, c, s) + PathFindings(g, i, c) + DeliveryFindings(i, outcome)
  }

  function BindingFindings(i: Inputs, c: Candidate, s: Digests): seq<Finding> {
    Need(IsSha256(c.taskSha), TaskDigestMissing) + Need(IsGitId(c.baseCommit), BaseCommitMissing)
    + Need(IsSha256(c.changeDigest), ChangeDigestMissing) + Need(IsSha256(c.resultDigest), ResultStateMissing)
    + Need(IsSha256(s.policy), PolicySnapshotMissing) + Need(IsSha256(s.adapter), AdapterSnapshotMissing)
    + Need(IsSha256(s.acceptance), AcceptanceSnapshotMissing) + Need(i.changesBase == c.baseCommit, BaseBindingMismatch)
  }

  function PathFindings(g: Given, i: Inputs, c: Candidate): seq<Finding> {
    if c.changedPaths == [] then []
    else Need(i.finalScope != [], ScopeEvidenceMissing) + ScopeFindings(g, c.changedPaths, i.finalScope)
  }

  function DeliveryFindings(i: Inputs, outcome: Outcome): seq<Finding> {
    if outcome == Verified || i.completion.verified
    then Need(i.completion.verified, CompletionNotVerified) + Need(i.acceptancePassed, AcceptanceNotPassed)
         + Need(i.lifecycle.Lifecycle? && i.lifecycle.valid, LifecycleNotValid)
    else []
  }

  /** `_completion_findings`, appending one finding after the other. */
  method CompletionFindings(g: Given, i: Inputs, c: Candidate, s: Digests, outcome: Outcome)
    returns (findings: seq<Finding>)
    ensures findings == FindingsOf(g, i, c, s, outcome)
  {
    hide IsSha256, IsGitId, Covered, ScopeFindings, Need;
    findings := Need(IsSha256(c.taskSha), TaskDigestMissing);
    findings := findings + Need(IsGitId(c.baseCommit), BaseCommitMissing);
    findings := findings + Need(IsSha256(c.changeDigest), ChangeDigestMissing);
    findings := findings + Need(IsSha256(c.resultDigest), ResultStateMissing);
    findings := findings + Need(IsSha256(s.policy), PolicySnapshotMissing);
    findings := findings + Need(IsSha256(s.adapter), AdapterSnapshotMissing);
    findings := findings + Need(IsSha256(s.acceptance), AcceptanceSnapshotMissing);
    findings := findings + Need(i.changesBase == c.baseCommit, BaseBindingMismatch);
    ghost var bound := findings;
    if c.changedPaths != [] {
      findings := findings + Need(i.finalScope != [], ScopeEvidenceMissing);
      ghost var before := findings;
      NoScopeFindings(g, i.finalScope);
      for k := 0 to |c.changedPaths|
        invariant findings == before + ScopeFindings(g, c.changedPaths[..k], i.finalScope)
      {
        NextScopeFinding(g, c.changedPaths, k, i.finalScope);
        findings := findings
            + Need(Covered(g, c.changedPaths[k], i.finalScope), ScopeBindingIncomplete(c.changedPaths[k]));
      }
      assert c.changedPaths[..|c.changedPaths|] == c.changedPaths;
      assert findings == bound
          + (Need(i.finalScope != [], ScopeEvidenceMissing) + ScopeFindings(g, c.changedPaths, i.finalScope));
    }
    ghost var scoped := findings;
    assert scoped == BindingFindings(i, c, s) + PathFindings(g, i, c);
    if outcome == Verified || i.completion.verified {
      findings := findings + Need(i.completion.verified, CompletionNotVerified);
      findings := findings + Need(i.acceptancePassed, AcceptanceNotPassed);
      findings := findings + Need(i.lifecycle.Lifecycle? && i.lifecycle.valid, LifecycleNotValid);
    }
    assert findings == scoped + DeliveryFindings(i, outcome);
  }

  lemma NoScopeFindings(g: Given, scope: seq<string>)
    ensures ScopeFindings(g, [], scope) == []
  {
  }

  lemma NextScopeFinding(g: Given, paths: seq<string>, k: nat, scope: seq<string>)
    requires k < |paths|
    ensures ScopeFindings(g, paths[..k + 1], scope)
         == ScopeFindings(g, paths[..k], scope) + Need(Covered(g, paths[k], scope), ScopeBindingIncomplete(paths[k]))
  {
    assert paths[..k + 1][..k] == paths[..k];
  }

  /** Nothing is reported exactly when every path is covered. */
  lemma {:induction false} ScopeIsClean(g: Given, paths: seq<string>, scope: seq<string>)
    ensures ScopeFindings(g, paths, scope) == [] <==> forall p :: p in paths ==> Covered(g, p, scope)
  {
    if paths != [] {
      var init, last := paths[..|paths| - 1], paths[|paths| - 1];
      ScopeIsClean(g, init, scope);
      assert paths == init + [last];
      assert last in paths && forall p :: p in paths <==> p in init || p == last;
    }
  }

  // ----- the record -----

  datatype Snapshots = Snapshots(policy: Payload, adapter: Payload, acceptance: Payload, lifecycle: Payload)

  const SAFE_KEYS := {"adapter", "adapter_version", "negotiated_protocol_version", "runtime_name", "runtime_version"}

  function SafeHandshake(handshake: map<string, string>): map<string, string> {
    map key | key in handshake && key in SAFE_KEYS :: handshake[key]
  }

  function NonBlank(g: Given, commands: seq<string>): seq<string> {
    if commands == [] then []
    else (if g.tidy(commands[0]) != "" then [commands[0]] else []) + NonBlank(g, commands[1..])
  }

  function SnapshotsOf(g: Given, i: Inputs): Snapshots {
    Snapshots(PolicyPayload(i.policyName, i.effectivePolicy),
              AdapterPayload(i.adapter, i.manifestDigest, SafeHandshake(i.handshake)),
              AcceptancePayload(NonBlank(g, i.commands)),
              match i.lifecycle
              case NoLifecycle => LifecyclePayload(false, false, None, 0)
              case Lifecycle(valid, head, events) => LifecyclePayload(true, valid, head, events))
  }

  function DigestsOf(g: Given, s: Snapshots): Digests {
    Digests(g.digest(s.policy), g.digest(s.adapter), g.digest(s.acceptance), g.digest(s.lifecycle))
  }

  function InputDigest(g: Given, taskSha: string, candidateDigest: string, d: Digests): string {
    g.digest(InputPayload(taskSha, candidateDigest, d.policy, d.adapter, d.acceptance, d.lifecycle))
  }

  /** `deterministic_reason_code` */
  function ReasonCode(g: Given, i: Inputs, outcome: Outcome, error: Error): string {
    var classification := g.tidy(i.classification);
    if error.Error? && error.code != "" then error.code
    else if outcome == Verified then "verified"
    else if outcome == Cancelled then "cancelled"
    else if outcome == TimedOut then "timeout"
    else if outcome == Failed then "runtime_failed"
    else if i.finalAction == Policy.Deny then "risk_policy_denied"
    else if i.finalAction == Policy.ReviewRequired then "risk_review_required"
    else if i.completion.violations > 0 then "executed_violation"
    else if classification !in {"", "pass", "command_failed"} then "acceptance_" + classification
    else if i.completion.errors > 0 then "verification_error"
    else if !i.completion.acceptancePassed then "acceptance_not_passed"
    else "manual_review_required"
  }

  function Code(f: Finding): string {
    match f
    case TaskDigestMissing => "task_digest_missing"
    case BaseCommitMissing => "base_commit_missing"
    case ChangeDigestMissing => "change_digest_missing"
    case ResultStateMissing => "result_state_missing"
    case PolicySnapshotMissing => "policy_snapshot_missing"
    case AdapterSnapshotMissing => "adapter_snapshot_missing"
    case AcceptanceSnapshotMissing => "acceptance_snapshot_missing"
    case BaseBindingMismatch => "base_binding_mismatch"
    case ScopeEvidenceMissing => "scope_evidence_missing"
    case ScopeBindingIncomplete(_) => "scope_binding_incomplete"
    case CompletionNotVerified => "completion_not_verified"
    case AcceptanceNotPassed => "acceptance_not_passed"
    case LifecycleNotValid => "lifecycle_not_valid"
  }

  function Codes(findings: seq<Finding>): set<string> { set f | f in findings :: Code(f) }

  datatype Record = Record(
    candidate: Candidate, candidateDigest: string, snapshots: Snapshots, digests: Digests, inputDigest: string,
    findings: seq<Finding>, verdict: Verdict, verdictDigest: string, digest: string)

  /** `build_determinism_record`; None where a changed file has no canonical path. */
  function BuildRecord(g: Given, i: Inputs, outcome: Outcome, error: Error): Option<Record> {
    match CandidateOf(g, i)
    case None => None
    case Some(c) =>
      var candidate := g.digest(CandidatePayload(c));
      var snapshots := SnapshotsOf(g, i);
      var digests := DigestsOf(g, snapshots);
      var input := InputDigest(g, i.taskSha, candidate, digests);
      var findings := FindingsOf(g, i, c, digests, outcome);
      var verdict := Verdict(outcome, ReasonCode(g, i, outcome, error), candidate, input, findings == [],
                             Codes(findings));
      var v := g.digest(VerdictPayload(verdict));
      Some(Record(c, candidate, snapshots, digests, input, findings, verdict, v,
                  g.digest(RecordPayload(c, candidate, snapshots, digests, input, findings, verdict, v))))
  }

  /** A stored run: what the record is built from, and what it leaves out. */
  datatype Run = Run(runId: string, root: string, startedAt: string, finishedAt: string, runtime: map<string, int>,
                     inputs: Inputs, outcome: Outcome, error: Error, record: Option<Record>)

  datatype Mismatch = Unavailable | RecordMismatch | InputMismatch | CandidateMismatch | VerdictMismatch

  /** `verify_determinism_record`; None where rebuilding the record raises ValueError. */
  method VerifyRecord(g: Given, run: Run) returns (findings: Option<seq<Mismatch>>)
    ensures run.record.None? ==> findings == Some([Unavailable])
    ensures run.record.Some? && CandidateOf(g, run.inputs).None? ==> findings == None
    ensures run.record.Some? && CandidateOf(g, run.inputs).Some? ==>
              var stored, actual := run.record.value, BuildRecord(g, run.inputs, run.outcome, run.error).value;
              findings.Some? && Unavailable !in findings.value
              && (RecordMismatch in findings.value <==> stored.digest != actual.digest)
              && (InputMismatch in findings.value <==> stored.inputDigest != actual.inputDigest)
              && (CandidateMismatch in findings.value <==> stored.candidateDigest != actual.candidateDigest)
              && (VerdictMismatch in findings.value <==> stored.verdictDigest != actual.verdictDigest)
    ensures findings == Some([]) <==> Verifies(g, run)
  {
    hide CandidateOf, SnapshotsOf, DigestsOf, InputDigest, FindingsOf, ReasonCode, Codes;
    if run.record.None? { return Some([Unavailable]); }
    var stored, recomputed := run.record.value, BuildRecord(g, run.inputs, run.outcome, run.error);
    if recomputed.None? { return None; }
    var actual, out := recomputed.value, [];
    if stored.digest != actual.digest { out := out + [RecordMismatch]; }
    if stored.inputDigest != actual.inputDigest { out := out + [InputMismatch]; }
    if stored.candidateDigest != actual.candidateDigest { out := out + [CandidateMismatch]; }
    if stored.verdictDigest != actual.verdictDigest { out := out + [VerdictMismatch]; }
    findings := Some(out);
  }

  /** The four stored digests are those of a record built again from the stored run. */
  predicate Verifies(g: Given, run: Run) {
    run.record.Some? &&
    var rebuilt := BuildRecord(g, run.inputs, run.outcome, run.error);
    rebuilt.Some? && run.record.value.digest == rebuilt.value.digest
    && run.record.value.inputDigest == rebuilt.value.inputDigest
    && run.record.value.candidateDigest == rebuilt.value.candidateDigest
    && run.record.value.verdictDigest == rebuilt.value.verdictDigest
  }

  // ----- what a record binds -----

  predicate SameState(a: GitState, b: GitState) { a.(branch := b.branch) == b }

  function Findings(g: Given, i: Inputs, outcome: Outcome): seq<Finding> {
    match CandidateOf(g, i)
    case None => []
    case Some(c) => FindingsOf(g, i, c, DigestsOf(g, SnapshotsOf(g, i)), outcome)
  }

  /** Two runs agree on all that is sealed. Branches, the spelling and order of changed files, blank
      commands, other keys of the handshake, and what an error says beyond its code do not matter. */
  predicate SameSealed(g: Given, a: Run, b: Run) {
    && SameParts(g, a, b)
    && ReasonCode(g, a.inputs, a.outcome, a.error) == ReasonCode(g, b.inputs, b.outcome, b.error)
    && Findings(g, a.inputs, a.outcome) == Findings(g, b.inputs, b.outcome)
  }

  /** The same parts of the record, apart from what it concludes. */
  predicate SameParts(g: Given, a: Run, b: Run) {
    && a.inputs.taskSha == b.inputs.taskSha
    && SameState(a.inputs.startGit, b.inputs.startGit) && SameState(a.inputs.resultGit, b.inputs.resultGit)
    && a.inputs.changeDigest == b.inputs.changeDigest
    && SamePaths(g, a.inputs.changedFiles, b.inputs.changedFiles)
    && a.inputs.policyName == b.inputs.policyName && a.inputs.effectivePolicy == b.inputs.effectivePolicy
    && a.inputs.adapter == b.inputs.adapter && a.inputs.manifestDigest == b.inputs.manifestDigest
    && SafeHandshake(a.inputs.handshake) == SafeHandshake(b.inputs.handshake)
    && NonBlank(g, a.inputs.commands) == NonBlank(g, b.inputs.commands)
    && a.inputs.lifecycle == b.inputs.lifecycle
    && a.outcome == b.outcome
  }

  function CanonicalSet(g: Given, files: seq<string>): set<Option<string>> { set f | f in files :: g.canonical(f) }

  /** The same set of canonical paths. */
  predicate SamePaths(g: Given, a: seq<string>, b: seq<string>) { CanonicalSet(g, a) == CanonicalSet(g, b) }

  lemma {:induction false} CanonicalPathsAre(g: Given, files: seq<string>)
    ensures CanonicalPaths(g, files).None? <==> exists f :: f in files && g.canonical(f).None?
    ensures CanonicalPaths(g, files).Some? ==>
              forall p :: p in CanonicalPaths(g, files).value <==> exists f :: f in files && g.canonical(f) == Some(p)
  {
    if files != [] {
      var rest := files[1..];
      CanonicalPathsAre(g, rest);
      assert files == [files[0]] + rest;
      assert files[0] in files && forall f :: f in files <==> f == files[0] || f in rest;
    }
  }

  lemma {:induction false} DedupeIs(paths: seq<string>)
    ensures Distinct(Dedupe(paths)) && forall p :: p in Dedupe(paths) <==> p in paths
  {
    if paths != [] {
      var init, last := paths[..|paths| - 1], paths[|paths| - 1];
      DedupeIs(init);
      assert paths == init + [last];
    }
  }

  function PathOrder(): (string, string) -> bool { ByText((x: string) => x) }

  lemma PathOrderIs(paths: seq<string>)
    ensures TotalPreorder(PathOrder()) && Strict(paths, PathOrder())
  {
    ByTextIsTotal((x: string) => x);
    forall x, y | PathOrder()(x, y) && PathOrder()(y, x) ensures x == y { TextLeqAntisymmetric(x, y); }
  }

  /** The changed paths of a candidate are those of the changed files. */
  lemma ChangedPathsAre(g: Given, i: Inputs)
    requires CandidateOf(g, i).Some?
    ensures forall p ::
              p in CandidateOf(g, i).value.changedPaths
              <==> exists f :: f in i.changedFiles && g.canonical(f) == Some(p)
  {
    var paths := CanonicalPaths(g, i.changedFiles).value;
    CanonicalPathsAre(g, i.changedFiles);
    DedupeIs(paths);
    PathOrderIs(paths);
    SortSorts(Dedupe(paths), PathOrder());
    var sorted := Sort(Dedupe(paths), PathOrder());
    assert forall p :: p in sorted <==> p in multiset(sorted);
    assert forall p :: p in Dedupe(paths) <==> p in multiset(Dedupe(paths));
  }

  /** The same canonical paths in any order and number give the same changed paths. */
  lemma SameSortedPaths(a: seq<string>, b: seq<string>)
    requires forall p :: p in a <==> p in b
    ensures Sort(Dedupe(a), PathOrder()) == Sort(Dedupe(b), PathOrder())
  {
    DedupeIs(a);
    DedupeIs(b);
    SameElements(Dedupe(a), Dedupe(b));
    PathOrderIs(Dedupe(a));
    SortIgnoresOrder(Dedupe(a), Dedupe(b), PathOrder());
  }

  lemma CanonicalIn(g: Given, a: seq<string>, b: seq<string>, f: string)
    requires SamePaths(g, a, b) && f in a
    ensures exists e :: e in b && g.canonical(e) == g.canonical(f)
  {
    assert g.canonical(f) in CanonicalSet(g, a);
  }

  lemma SamePathsMeans(g: Given, a: seq<string>, b: seq<string>)
    requires CanonicalPaths(g, a).Some?
    ensures SamePaths(g, a, b) <==>
              (CanonicalPaths(g, b).Some?
               && forall p :: p in CanonicalPaths(g, a).value <==> p in CanonicalPaths(g, b).value)
  {
    CanonicalPathsAre(g, a);
    CanonicalPathsAre(g, b);
    var x, y := CanonicalSet(g, a), CanonicalSet(g, b);
    if SamePaths(g, a, b) {
      forall f | f in b ensures g.canonical(f).Some? { CanonicalIn(g, b, a, f); }
      forall p | p in CanonicalPaths(g, a).value ensures p in CanonicalPaths(g, b).value {
        var f :| f in a && g.canonical(f) == Some(p);
        CanonicalIn(g, a, b, f);
      }
      forall p | p in CanonicalPaths(g, b).value ensures p in CanonicalPaths(g, a).value {
        var f :| f in b && g.canonical(f) == Some(p);
        CanonicalIn(g, b, a, f);
      }
    }
    if CanonicalPaths(g, b).Some? && forall p :: p in CanonicalPaths(g, a).value <==> p in CanonicalPaths(g, b).value {
      forall f | f in a ensures g.canonical(f) in y { assert g.canonical(f).value in CanonicalPaths(g, a).value; }
      forall f | f in b ensures g.canonical(f) in x { assert g.canonical(f).value in CanonicalPaths(g, b).value; }
      assert x == y;
    }
  }

  lemma SameCandidate(g: Given, a: Inputs, b: Inputs)
    requires CandidateOf(g, a).Some? && a.taskSha == b.taskSha && a.changeDigest == b.changeDigest
    requires SameState(a.startGit, b.startGit) && SameState(a.resultGit, b.resultGit)
    requires SamePaths(g, a.changedFiles, b.changedFiles)
    ensures CandidateOf(g, b) == CandidateOf(g, a)
  {
    SamePathsMeans(g, a.changedFiles, b.changedFiles);
    SameSortedPaths(CanonicalPaths(g, a.changedFiles).value, CanonicalPaths(g, b.changedFiles).value);
  }

  /** Runs that agree on what is sealed get the same record, whatever their id, times, root, runtime
      counters and branches. */
  lemma SameRecord(g: Given, a: Run, b: Run)
    requires CandidateOf(g, a.inputs).Some? && SameSealed(g, a, b)
    ensures BuildRecord(g, a.inputs, a.outcome, a.error) == BuildRecord(g, b.inputs, b.outcome, b.error)
  {
    hide FindingsOf, ReasonCode, SafeHandshake, NonBlank, SamePaths, CandidateOf;
    SameCandidate(g, a.inputs, b.inputs);
  }

  /** Two runs were given the same: the prompt, both states of the repository, the change, the policy and its
      action, the adapter, the acceptance, the scope, the completion and the lifecycle, and they ended
      with the same outcome and error code. Branches, order, repetition and spelling of the changed
      files, blank commands and other keys of the handshake are free. */
  predicate SameInputs(g: Given, a: Run, b: Run) {
    && SameParts(g, a, b)
    && a.inputs.changesBase == b.inputs.changesBase && a.inputs.finalScope == b.inputs.finalScope
    && a.inputs.acceptancePassed == b.inputs.acceptancePassed
    && g.tidy(a.inputs.classification) == g.tidy(b.inputs.classification)
    && a.inputs.completion == b.inputs.completion && a.inputs.finalAction == b.inputs.finalAction
    && ErrorCode(a.error) == ErrorCode(b.error)
  }

  function ErrorCode(error: Error): string { if error.Error? then error.code else "" }

  /** The same inputs give the same reason, the same findings and the same record, digest included,
      whatever the ids, times, roots and runtime counters of the two runs. */
  lemma InputsFixTheRecord(g: Given, a: Run, b: Run)
    requires CandidateOf(g, a.inputs).Some? && SameInputs(g, a, b)
    ensures BuildRecord(g, a.inputs, a.outcome, a.error) == BuildRecord(g, b.inputs, b.outcome, b.error)
    ensures SameSealed(g, a, b)
  {
    SameInputsSealed(g, a, b);
    SameRecord(g, a, b);
  }

  lemma SameInputsSealed(g: Given, a: Run, b: Run)
    requires CandidateOf(g, a.inputs).Some? && SameInputs(g, a, b)
    ensures SameSealed(g, a, b)
  {
    hide CandidateOf, IsSha256, IsGitId, ScopeFindings, SafeHandshake, NonBlank, SamePaths;
    SameCandidate(g, a.inputs, b.inputs);
  }

  /** What is digested for the record of a run. */
  function Digested(g: Given, run: Run): set<Payload> {
    match BuildRecord(g, run.inputs, run.outcome, run.error)
    case None => {}
    case Some(r) =>
      {StatePayloadOf(run.inputs.startGit), StatePayloadOf(run.inputs.resultGit), CandidatePayload(r.candidate),
       VerdictPayload(r.verdict),
       RecordPayload(r.candidate, r.candidateDigest, r.snapshots, r.digests, r.inputDigest, r.findings, r.verdict,
                     r.verdictDigest)}
  }

  /** Nothing of the one run collides with something else of the other. */
  ghost predicate NoCollision(g: Given, a: Run, b: Run) {
    forall x, y :: x in Digested(g, a) && y in Digested(g, b) && g.digest(x) == g.digest(y) ==> x == y
  }

  /** A stored run that carries the record sealed for the run `a` verifies exactly when it agrees
      with `a` on everything that is sealed. */
  lemma VerifiesIffSameSealed(g: Given, a: Run, b: Run)
    requires a.record == BuildRecord(g, a.inputs, a.outcome, a.error) && a.record.Some? && b.record == a.record
    requires NoCollision(g, a, b)
    ensures Verifies(g, b) <==> SameSealed(g, a, b)
  {
    if SameSealed(g, a, b) {
      SameRecord(g, a, b);
    } else if Verifies(g, b) {
      DigestFixesTheSealed(g, a, b);
    }
  }

  lemma DigestFixesTheSealed(g: Given, a: Run, b: Run)
    requires NoCollision(g, a, b)
    requires BuildRecord(g, a.inputs, a.outcome, a.error).Some? && BuildRecord(g, b.inputs, b.outcome, b.error).Some?
    requires BuildRecord(g, a.inputs, a.outcome, a.error).value.digest
        == BuildRecord(g, b.inputs, b.outcome, b.error).value.digest
    ensures SameSealed(g, a, b)
  {
    hide FindingsOf, ReasonCode, SafeHandshake, NonBlank, SamePaths;
    var r, q := BuildRecord(g, a.inputs, a.outcome, a.error).value, BuildRecord(g, b.inputs, b.outcome, b.error).value;
    SameDigestSameRecord(g, a, b);
    assert StatePayloadOf(a.inputs.startGit) == StatePayloadOf(b.inputs.startGit);
    assert StatePayloadOf(a.inputs.resultGit) == StatePayloadOf(b.inputs.resultGit);
    SortedPathsFixThePaths(g, a.inputs.changedFiles, b.inputs.changedFiles);
  }

  lemma SameDigestSameRecord(g: Given, a: Run, b: Run)
    requires NoCollision(g, a, b)
    requires BuildRecord(g, a.inputs, a.outcome, a.error).Some? && BuildRecord(g, b.inputs, b.outcome, b.error).Some?
    requires BuildRecord(g, a.inputs, a.outcome, a.error).value.digest
        == BuildRecord(g, b.inputs, b.outcome, b.error).value.digest
    ensures BuildRecord(g, a.inputs, a.outcome, a.error) == BuildRecord(g, b.inputs, b.outcome, b.error)
  {
    hide FindingsOf, ReasonCode, SnapshotsOf, DigestsOf, CandidateOf, InputDigest, Codes, StatePayloadOf;
  }

  lemma SortedPathsFixThePaths(g: Given, a: seq<string>, b: seq<string>)
    requires CanonicalPaths(g, a).Some? && CanonicalPaths(g, b).Some?
    requires Sort(Dedupe(CanonicalPaths(g, a).value), PathOrder())
        == Sort(Dedupe(CanonicalPaths(g, b).value), PathOrder())
    ensures SamePaths(g, a, b)
  {
    SamePathsMeans(g, a, b);
    var x, y := CanonicalPaths(g, a).value, CanonicalPaths(g, b).value;
    DedupeIs(x);
    DedupeIs(y);
    PathOrderIs([]);
    SortSorts(Dedupe(x), PathOrder());
    SortSorts(Dedupe(y), PathOrder());
    assert forall p :: p in Dedupe(x) <==> p in multiset(Dedupe(x));
    assert forall p :: p in Dedupe(y) <==> p in multiset(Dedupe(y));
  }
}
