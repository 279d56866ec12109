/** The stored form of a controlled run: the keys that `ControlledRunResult.to_dict` of
    src/claim_plane/controlled_run.py writes, and those that `verify_determinism_record` of
    src/claim_plane/determinism.py reads. */
module StoredRun {
  import opened Wrappers
  import opened Determinism
  import ControlledRun
  import Policy

  /** The values under the keys. */
  datatype Stored =
    | Text(text: string)
    | Texts(texts: map<string, string>)
    | Numbers(numbers: map<string, int>)
    | Git(git: GitState)
    | Changes(files: seq<string>, base: string, digest: string)
    | Acceptance(commands: seq<string>, passed: bool, classification: string)
    | CompletionOf(completion: Completion)
    | Scope(final: seq<string>)
    | LifecycleOf(lifecycle: Lifecycle)
    | Risk(finalAction: Policy.Action)
    | OutcomeOf(outcome: Outcome)
    | ErrorOf(error: Error)
    | Sealed(record: Record)

  /** The keys, `run_id` to `determinism`. */
  datatype Key =
    | RunId | Root | StartedAt | FinishedAt | Runtime | Adapter | PolicyName | TaskSha256 | ManifestDigest
    | Handshake | EffectivePolicy | StartGit | ResultGit | ChangesKey | AcceptanceKey | CompletionKey | ScopeKey
    | LifecycleKey | RiskKey | OutcomeKey | ErrorKey | Determinism

  type Dict = map<Key, Stored>

  /** `to_dict`, key by key; a run from before the records has no `determinism`. */
  function Entry(r: Run, key: Key): Option<Stored> {
    var i := r.inputs;
    match key
    case RunId => Some(Text(r.runId))
    case Root => Some(Text(r.root))
    case StartedAt => Some(Text(r.startedAt))
    case FinishedAt => Some(Text(r.finishedAt))
    case Runtime => Some(Numbers(r.runtime))
    case Adapter => Some(Text(i.adapter))
    case PolicyName => Some(Text(i.policyName))
    case TaskSha256 => Some(Text(i.taskSha))
    case ManifestDigest => Some(Text(i.manifestDigest))
    case Handshake => Some(Texts(i.handshake))
    case EffectivePolicy => Some(Text(i.effectivePolicy))
    case StartGit => Some(Git(i.startGit))
    case ResultGit => Some(Git(i.resultGit))
    case ChangesKey => Some(Changes(i.changedFiles, i.changesBase, i.changeDigest))
    case AcceptanceKey => Some(Acceptance(i.commands, i.acceptancePassed, i.classification))
    case CompletionKey => Some(CompletionOf(i.completion))
    case ScopeKey => Some(Scope(i.finalScope))
    case LifecycleKey => if i.lifecycle == NoLifecycle then None else Some(LifecycleOf(i.lifecycle))
    case RiskKey => Some(Risk(i.finalAction))
    case OutcomeKey => Some(OutcomeOf(r.outcome))
    case ErrorKey => if r.error == NoError then None else Some(ErrorOf(r.error))
    case Determinism => if r.record.Some? then Some(Sealed(r.record.value)) else None
  }

  function ToDict(r: Run): Dict { map key: Key | Entry(r, key).Some? :: Entry(r, key).value }

  // ----- reading, with a default where there is nothing under the key -----

  function TextAt(d: Dict, key: Key): string { if key in d && d[key].Text? then d[key].text else "" }

  const NO_STATE := GitState("", "", "", "", "", map[])

  function StateAt(d: Dict, key: Key): GitState { if key in d && d[key].Git? then d[key].git else NO_STATE }

  function ChangesAt(d: Dict): Stored {
    if ChangesKey in d && d[ChangesKey].Changes? then d[ChangesKey] else Changes([], "", "")
  }

  function AcceptanceAt(d: Dict): Stored {
    if AcceptanceKey in d && d[AcceptanceKey].Acceptance? then d[AcceptanceKey] else Acceptance([], false, "")
  }

  /** What the verification reads; None without an outcome, a completion or an action. */
  function Reread(d: Dict): Option<Run> {
    if !(OutcomeKey in d && d[OutcomeKey].OutcomeOf? && CompletionKey in d && d[CompletionKey].CompletionOf?
         && RiskKey in d && d[RiskKey].Risk?) then None
    else
      var changes, acceptance := ChangesAt(d), AcceptanceAt(d);
      Some(Run("", "", "", "", map[],
               Inputs(TextAt(d, TaskSha256), TextAt(d, Adapter), TextAt(d, ManifestDigest),
                      if Handshake in d && d[Handshake].Texts? then d[Handshake].texts else map[],
                      TextAt(d, PolicyName), TextAt(d, EffectivePolicy), StateAt(d, StartGit), StateAt(d, ResultGit),
                      changes.files, changes.base, changes.digest,
                      acceptance.commands, acceptance.passed, acceptance.classification, d[CompletionKey].completion,
                      if ScopeKey in d && d[ScopeKey].Scope? then d[ScopeKey].final else [],
                      if LifecycleKey in d && d[LifecycleKey].LifecycleOf? then d[LifecycleKey].lifecycle
                      else NoLifecycle,
                      d[RiskKey].finalAction),
               d[OutcomeKey].outcome, if ErrorKey in d && d[ErrorKey].ErrorOf? then d[ErrorKey].error else NoError,
               if Determinism in d && d[Determinism].Sealed? then Some(d[Determinism].record) else None))
  }

  /** Everything that is verified comes back from the keys it was stored under; ids, times, root and
      runtime counters are not even read. */
  lemma RereadIsTheRun(r: Run)
    ensures Reread(ToDict(r)) == Some(Bare(r))
  {
    hide ToDict, Entry, TextAt, StateAt, ChangesAt, AcceptanceAt;
    TextsAreRead(r);
    PartsAreRead(r);
    EndIsRead(r);
  }

  function Bare(r: Run): Run { r.(runId := "", root := "", startedAt := "", finishedAt := "", runtime := map[]) }

  lemma StoredUnder(r: Run, key: Key)
    ensures key in ToDict(r) <==> Entry(r, key).Some?
    ensures key in ToDict(r) ==> ToDict(r)[key] == Entry(r, key).value
  {
    hide Entry;
  }

  lemma TextsAreRead(r: Run)
    ensures var d, i := ToDict(r), r.inputs;
            && TextAt(d, TaskSha256) == i.taskSha && TextAt(d, Adapter) == i.adapter
            && TextAt(d, ManifestDigest) == i.manifestDigest
            && TextAt(d, PolicyName) == i.policyName && TextAt(d, EffectivePolicy) == i.effectivePolicy
            && StateAt(d, StartGit) == i.startGit && StateAt(d, ResultGit) == i.resultGit
  {
    hide ToDict;
    StoredUnder(r, TaskSha256);
    StoredUnder(r, Adapter);
    StoredUnder(r, ManifestDigest);
    StoredUnder(r, PolicyName);
    StoredUnder(r, EffectivePolicy);
    StoredUnder(r, StartGit);
    StoredUnder(r, ResultGit);
  }

  lemma PartsAreRead(r: Run)
    ensures var d, i := ToDict(r), r.inputs;
            && Handshake in d && d[Handshake] == Texts(i.handshake)
            && ChangesAt(d) == Changes(i.changedFiles, i.changesBase, i.changeDigest)
            && AcceptanceAt(d) == Acceptance(i.commands, i.acceptancePassed, i.classification)
            && CompletionKey in d && d[CompletionKey] == CompletionOf(i.completion)
            && ScopeKey in d && d[ScopeKey] == Scope(i.finalScope) && RiskKey in d && d[RiskKey] == Risk(i.finalAction)
  {
    hide ToDict;
    StoredUnder(r, Handshake);
    StoredUnder(r, ChangesKey);
    StoredUnder(r, AcceptanceKey);
    StoredUnder(r, CompletionKey);
    StoredUnder(r, ScopeKey);
    StoredUnder(r, RiskKey);
  }

  lemma EndIsRead(r: Run)
    ensures var d := ToDict(r);
            && OutcomeKey in d && d[OutcomeKey] == OutcomeOf(r.outcome)
            && (if LifecycleKey in d then d[LifecycleKey] == LifecycleOf(r.inputs.lifecycle)
                else r.inputs.lifecycle == NoLifecycle)
            && (if ErrorKey in d then d[ErrorKey] == ErrorOf(r.error) else r.error == NoError)
            && (if Determinism in d then r.record.Some? && d[Determinism] == Sealed(r.record.value)
                else r.record == None)
  {
    hide ToDict;
    StoredUnder(r, OutcomeKey);
    StoredUnder(r, LifecycleKey);
    StoredUnder(r, ErrorKey);
    StoredUnder(r, Determinism);
  }

  /** `verify_determinism_record` on a stored run. */
  method VerifyStored(g: Given, d: Dict) returns (r: Option<seq<Mismatch>>)
    ensures r == Some([]) <==> Reread(d).Some? && Verifies(g, Reread(d).value)
  {
    var run := Reread(d);
    if run.None? { return None; }
    r := VerifyRecord(g, run.value);
  }

  /** Every finished run, stored and read again, verifies. */
  method StoreAndVerify(g: Given, ending: ControlledRun.Ending, i: Inputs, runId: string, root: string, started: string,
                        finished: string, runtime: map<string, int>)
    returns (d: Option<Dict>, mismatches: Option<seq<Mismatch>>)
    ensures d.None? <==> exists f :: f in i.changedFiles && g.canonical(f).None?
    ensures d.Some? ==> mismatches == Some([])
  {
    hide Verifies, ToDict, Reread;
    mismatches := None;
    var run := ControlledRun.StoreRun(g, ending, i, runId, root, started, finished, runtime);
    if run.None? { return None, None; }
    d := Some(ToDict(run.value));
    RereadIsTheRun(run.value);
    OnlyInputsCount(g, run.value);
    mismatches := VerifyStored(g, d.value);
  }

  lemma OnlyInputsCount(g: Given, r: Run)
    ensures Verifies(g, r) == Verifies(g, Bare(r))
  {
  }
}
