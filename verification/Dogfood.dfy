/** Frozen suites and run plans of src/claim_plane/dogfood.py. Digests are functions passed
    in; what depends on collisions names the texts that must not collide. */
module Dogfood {
  import opened Wrappers
  import opened ConfigText
  import opened Ordering

  datatype Arm = BareCodex | Observe | Guarded

  const ARMS := [BareCodex, Observe, Guarded]

  datatype Repository = Repository(id: string, cloneUrl: string, baseCommit: string, language: string)

  datatype GoldenTask = GoldenTask(
    id: string, repositoryId: string, prompt: string, promptSha: string, sourceRef: string, taskClass: string,
    riskClass: string, acceptance: seq<string>, split: string)

  datatype Inputs = Inputs(
    suiteId: string, description: string, frozenAt: string, selectionSeed: int, seeds: seq<int>,
    repositories: seq<Repository>, tasks: seq<GoldenTask>)

  datatype Suite = Suite(inputs: Inputs, digest: string)

  datatype Problem =
    | NegativeSeed | NothingToRun | DuplicateRepository | DuplicateTask | DuplicateSeed | UnknownRepository
    | NotReleaseGrade | EmptyText | NoAcceptance | PromptMismatch | DigestMismatch | DuplicateExecution

  datatype Checked<+T> = Pass(value: T) | Fail(problem: Problem)

  // ----- freezing -----

  /** No two elements share the key. */
  ghost predicate DistinctBy<T>(s: seq<T>, key: T -> string) {
    forall i, j :: 0 <= i < j < |s| ==> key(s[i]) != key(s[j])
  }

  function TaskId(): GoldenTask -> string { (t: GoldenTask) => t.id }

  function RepositoryId(): Repository -> string { (r: Repository) => r.id }

  ghost predicate KnowsRepositories(inputs: Inputs) {
    forall t :: t in inputs.tasks ==> exists r :: r in inputs.repositories && r.id == t.repositoryId
  }

  /** The demands of `require_release_grade`. */
  ghost predicate ReleaseGrade(inputs: Inputs) {
    && 20 <= |inputs.tasks| <= 30 && 5 <= |inputs.repositories| <= 10 && |inputs.seeds| >= 2
    && |set t | t in inputs.tasks :: t.taskClass| >= 3 && |set t | t in inputs.tasks :: t.riskClass| >= 3
    && |set t | t in inputs.tasks :: t.repositoryId| >= 5
    && forall r :: r in inputs.repositories ==> |r.baseCommit| == 40
  }

  /** `freeze_golden_suite` on parsed repositories and tasks: sort, digest, and load again through
      `GoldenSuite.from_dict`. A time with blanks around it is digested with them and loaded without. */
  ghost function Freeze(candidate: Inputs, digest: Inputs -> string, releaseGrade: bool): Checked<Suite> {
    var frozen := candidate.(
      suiteId := Strip(candidate.suiteId), description := Strip(candidate.description),
      repositories := Sort(candidate.repositories, ByText(RepositoryId())),
      tasks := Sort(candidate.tasks, ByText(TaskId())));
    var loaded := frozen.(frozenAt := Strip(frozen.frozenAt));
    if frozen.suiteId == "" || frozen.description == "" then Fail(EmptyText)
    else if frozen.selectionSeed < 0 || exists s :: s in frozen.seeds && s < 0 then Fail(NegativeSeed)
    else if frozen.repositories == [] || frozen.tasks == [] || frozen.seeds == [] then Fail(NothingToRun)
    else if loaded.frozenAt == "" then Fail(EmptyText)
    else if !DistinctBy(frozen.repositories, RepositoryId()) then Fail(DuplicateRepository)
    else if !DistinctBy(frozen.tasks, TaskId()) then Fail(DuplicateTask)
    else if !Distinct(frozen.seeds) then Fail(DuplicateSeed)
    else if !KnowsRepositories(frozen) then Fail(UnknownRepository)
    else if releaseGrade && !ReleaseGrade(frozen) then Fail(NotReleaseGrade)
    else if digest(frozen) != digest(loaded) then Fail(DigestMismatch)
    else Pass(Suite(loaded, digest(loaded)))
  }

  lemma DistinctByMeans<T(!new)>(s: seq<T>, key: T -> string)
    ensures DistinctBy(s, key) <==> Distinct(s) && Strict(s, ByText(key))
  {
    if DistinctBy(s, key) {
      forall x, y | x in s && y in s && ByText(key)(x, y) && ByText(key)(y, x) ensures x == y {
        TextLeqAntisymmetric(key(x), key(y));
      }
    } else {
      var i, j :| 0 <= i < j < |s| && key(s[i]) == key(s[j]);
      TextLeqTotal(key(s[i]), key(s[i]));
      assert ByText(key)(s[i], s[j]) && ByText(key)(s[j], s[i]);
    }
  }

  lemma SortedCopies<T(!new)>(a: seq<T>, b: seq<T>, key: T -> string)
    requires multiset(a) == multiset(b)
    ensures var leq := ByText(key);
            && DistinctBy(Sort(a, leq), key) == DistinctBy(Sort(b, leq), key)
            && (DistinctBy(Sort(a, leq), key) ==> Sort(a, leq) == Sort(b, leq))
            && (Sort(a, leq) == [] <==> Sort(b, leq) == [])
  {
    var leq := ByText(key);
    ByTextIsTotal(key);
    SortSorts(a, leq);
    SortSorts(b, leq);
    DistinctByMeans(Sort(a, leq), key);
    DistinctByMeans(Sort(b, leq), key);
    DistinctInAnyOrder(Sort(a, leq), Sort(b, leq));
    if DistinctBy(Sort(a, leq), key) { OneSortedOrder(Sort(a, leq), Sort(b, leq), leq); }
    assert |multiset(Sort(a, leq))| == |multiset(Sort(b, leq))|;
  }

  /** The frozen suite, digest included, or the refusal does not depend on the order in which
      repositories and tasks are listed. */
  lemma FreezeIgnoresOrder(a: Inputs, b: Inputs, digest: Inputs -> string, releaseGrade: bool)
    requires multiset(a.repositories) == multiset(b.repositories) && multiset(a.tasks) == multiset(b.tasks)
    requires a.(repositories := b.repositories, tasks := b.tasks) == b
    ensures Freeze(a, digest, releaseGrade) == Freeze(b, digest, releaseGrade)
  {
    hide Strip, Sort, ReleaseGrade;
    SortedCopies(a.repositories, b.repositories, RepositoryId());
    SortedCopies(a.tasks, b.tasks, TaskId());
  }

  // ----- the plan -----

  datatype Identity = Identity(suiteDigest: string, taskId: string, seed: int, arm: Arm)

  datatype Entry = Entry(
    executionId: string, taskId: string, repositoryId: string, baseCommit: string, prompt: string, promptSha: string,
    acceptance: seq<string>, taskClass: string, riskClass: string, seed: int, arm: Arm, policy: Option<string>)

  datatype Plan = Plan(suiteId: string, suiteDigest: string, createdAt: string, model: Option<string>,
                       entries: seq<Entry>, digest: string)

  /** What the digest of a plan is taken of. */
  function Unsigned(p: Plan): Plan { p.(digest := "") }

  function PolicyOf(arm: Arm): Option<string> {
    match arm case BareCodex => None case Observe => Some("observe") case Guarded => Some("guarded")
  }

  /** `repositories[id].base_commit`, the later of two equal ids winning. */
  function BaseCommit(repositories: seq<Repository>, id: string): string {
    if repositories == [] then ""
    else
      var init, last := repositories[..|repositories| - 1], repositories[|repositories| - 1];
      if last.id == id then last.baseCommit else BaseCommit(init, id)
  }

  /** A known repository has its own commit. */
  lemma {:induction false} BaseCommitIs(repositories: seq<Repository>, id: string)
    requires exists r :: r in repositories && r.id == id
    ensures exists r :: r in repositories && r.id == id && r.baseCommit == BaseCommit(repositories, id)
  {
    var init, last := repositories[..|repositories| - 1], repositories[|repositories| - 1];
    assert repositories == init + [last];
    if last.id == id {
      assert last in repositories;
    } else {
      var r :| r in repositories && r.id == id;
      assert r in init;
      BaseCommitIs(init, id);
    }
  }

  function ExecutionId(digest: Identity -> string, x: Identity): string { "dogfood-" + digest(x) }

  function EntryOf(suite: Suite, t: GoldenTask, seed: int, arm: Arm, digest: Identity -> string): Entry {
    Entry(ExecutionId(digest, Identity(suite.digest, t.id, seed, arm)), t.id, t.repositoryId,
          BaseCommit(suite.inputs.repositories, t.repositoryId), t.prompt, t.promptSha, t.acceptance,
          t.taskClass, t.riskClass, seed, arm, PolicyOf(arm))
  }

  function IntLeq(): (int, int) -> bool { (a: int, b: int) => a <= b }

  /** Every combination, tasks outermost and arms innermost. */
  function Cells(tasks: seq<GoldenTask>, seeds: seq<int>): seq<(GoldenTask, int, Arm)> {
    if tasks == [] then [] else TaskCells(tasks[0], seeds) + Cells(tasks[1..], seeds)
  }

  function TaskCells(t: GoldenTask, seeds: seq<int>): seq<(GoldenTask, int, Arm)> {
    if seeds == [] then []
    else [(t, seeds[0], BareCodex), (t, seeds[0], Observe), (t, seeds[0], Guarded)] + TaskCells(t, seeds[1..])
  }

  function EntriesOf(suite: Suite, cells: seq<(GoldenTask, int, Arm)>, digest: Identity -> string): seq<Entry> {
    seq(|cells|, i requires 0 <= i < |cells| => EntryOf(suite, cells[i].0, cells[i].1, cells[i].2, digest))
  }

  lemma {:induction false} TaskCellsAreAll(t: GoldenTask, seeds: seq<int>)
    requires Distinct(seeds)
    ensures |TaskCells(t, seeds)| == 3 * |seeds| && Distinct(TaskCells(t, seeds))
    ensures forall c :: c in TaskCells(t, seeds) <==> c.0 == t && c.1 in seeds
  {
    if seeds != [] {
      TaskCellsAreAll(t, seeds[1..]);
      assert seeds == [seeds[0]] + seeds[1..];
      var head := [(t, seeds[0], BareCodex), (t, seeds[0], Observe), (t, seeds[0], Guarded)];
      assert TaskCells(t, seeds) == head + TaskCells(t, seeds[1..]);
      forall c ensures c in head <==> c.0 == t && c.1 == seeds[0] {
        assert c.2.BareCodex? ==> c == (c.0, c.1, BareCodex);
        assert head[0] in head && head[1] in head && head[2] in head;
      }
      DistinctConcat(head, TaskCells(t, seeds[1..]));
    }
  }

  lemma DistinctConcat<T>(a: seq<T>, b: seq<T>)
    requires Distinct(a) && Distinct(b) && forall x :: x in a ==> x !in b
    ensures Distinct(a + b)
  {
    forall i, j | 0 <= i < j < |a + b| ensures (a + b)[i] != (a + b)[j] {
      if i < |a| <= j { assert a[i] in a && b[j - |a|] in b; }
    }
  }

  lemma {:induction false} CellsContain(tasks: seq<GoldenTask>, seeds: seq<int>)
    requires Distinct(seeds)
    ensures forall c :: c in Cells(tasks, seeds) <==> c.0 in tasks && c.1 in seeds
  {
    if tasks != [] {
      CellsContain(tasks[1..], seeds);
      TaskCellsAreAll(tasks[0], seeds);
      hide TaskCells, Distinct;
      assert tasks == [tasks[0]] + tasks[1..];
    }
  }

  lemma {:induction false} CellsSize(tasks: seq<GoldenTask>, seeds: seq<int>)
    requires Distinct(seeds)
    ensures |Cells(tasks, seeds)| == 3 * |seeds| * |tasks|
  {
    hide TaskCells;
    if tasks != [] {
      CellsSize(tasks[1..], seeds);
      TaskCellsAreAll(tasks[0], seeds);
      assert 3 * |seeds| * |tasks| == 3 * |seeds| + 3 * |seeds| * (|tasks| - 1);
    }
  }

  lemma {:induction false} CellsAreDistinct(tasks: seq<GoldenTask>, seeds: seq<int>)
    requires Distinct(tasks) && Distinct(seeds)
    ensures Distinct(Cells(tasks, seeds))
  {
    hide TaskCells;
    if tasks != [] {
      var t, rest := tasks[0], tasks[1..];
      OnlyFirst(tasks);
      CellsAreDistinct(rest, seeds);
      TaskCellsAreAll(t, seeds);
      CellsContain(rest, seeds);
      DistinctConcat(TaskCells(t, seeds), Cells(rest, seeds));
    }
  }

  lemma OnlyFirst<T>(s: seq<T>)
    requires Distinct(s) && s != []
    ensures s[0] !in s[1..] && Distinct(s[1..])
  {
  }

  lemma EntriesConcat(suite: Suite, a: seq<(GoldenTask, int, Arm)>, b: seq<(GoldenTask, int, Arm)>,
                      digest: Identity -> string)
    ensures EntriesOf(suite, a + b, digest) == EntriesOf(suite, a, digest) + EntriesOf(suite, b, digest)
  {
  }

  lemma NoEntries(suite: Suite, digest: Identity -> string)
    ensures EntriesOf(suite, [], digest) == []
  {
  }

  /** The two inner loops. */
  method TaskEntries(suite: Suite, t: GoldenTask, seeds: seq<int>, digest: Identity -> string)
    returns (entries: seq<Entry>)
    ensures entries == EntriesOf(suite, TaskCells(t, seeds), digest)
  {
    hide EntryOf;
    entries := [];
    assert seeds[0..] == seeds;
    for j := 0 to |seeds|
      invariant entries + EntriesOf(suite, TaskCells(t, seeds[j..]), digest)
          == EntriesOf(suite, TaskCells(t, seeds), digest)
    {
      var seed := seeds[j];
      assert seeds[j..][1..] == seeds[j + 1..];
      ghost var row := [(t, seed, BareCodex), (t, seed, Observe), (t, seed, Guarded)];
      EntriesConcat(suite, row, TaskCells(t, seeds[j + 1..]), digest);
      ghost var before := entries;
      for k := 0 to |ARMS|
        invariant entries == before + EntriesOf(suite, row, digest)[..k]
      {
        entries := entries + [EntryOf(suite, t, seed, ARMS[k], digest)];
      }
    }
  }

  ghost function PlannedCells(suite: Suite): seq<(GoldenTask, int, Arm)> {
    Cells(Sort(suite.inputs.tasks, ByText(TaskId())), Sort(suite.inputs.seeds, IntLeq()))
  }

  /** `build_dogfood_plan` */
  method BuildPlan(suite: Suite, createdAt: string, model: Option<string>, digest: Identity -> string,
                   planDigest: Plan -> string)
    returns (plan: Plan)
    requires KnowsRepositories(suite.inputs)
    ensures IsPlanOf(plan, suite, digest, planDigest) && plan.createdAt == createdAt && plan.model == model
  {
    hide Sort, TaskCells, EntriesOf;
    var tasks, seeds := Sort(suite.inputs.tasks, ByText(TaskId())), Sort(suite.inputs.seeds, IntLeq());
    var entries: seq<Entry> := [];
    assert tasks[0..] == tasks;
    for i := 0 to |tasks|
      invariant entries + EntriesOf(suite, Cells(tasks[i..], seeds), digest)
          == EntriesOf(suite, Cells(tasks, seeds), digest)
    {
      assert tasks[i..][1..] == tasks[i + 1..];
      EntriesConcat(suite, TaskCells(tasks[i], seeds), Cells(tasks[i + 1..], seeds), digest);
      var more := TaskEntries(suite, tasks[i], seeds, digest);
      entries := entries + more;
    }
    NoEntries(suite, digest);
    plan := Plan(suite.inputs.suiteId, suite.digest, createdAt, model, entries, "");
    plan := plan.(digest := planDigest(plan));
    assert Unsigned(plan) == plan.(digest := "");
  }

  ghost predicate IsPlanOf(plan: Plan, suite: Suite, digest: Identity -> string, planDigest: Plan -> string) {
    && plan.suiteId == suite.inputs.suiteId && plan.suiteDigest == suite.digest
    && plan.entries == EntriesOf(suite, PlannedCells(suite), digest) && plan.digest == planDigest(Unsigned(plan))
  }

  /** A frozen suite, as far as planning cares. */
  ghost predicate Frozen(suite: Suite) {
    && DistinctBy(suite.inputs.tasks, TaskId()) && Distinct(suite.inputs.seeds)
    && suite.inputs.tasks != [] && suite.inputs.seeds != []
    && (forall s :: s in suite.inputs.seeds ==> s >= 0)
    && KnowsRepositories(suite.inputs) && IsText(suite.inputs.suiteId)
  }

  lemma FreezeMakesFrozen(candidate: Inputs, digest: Inputs -> string, releaseGrade: bool)
    requires Freeze(candidate, digest, releaseGrade).Pass?
    ensures var suite := Freeze(candidate, digest, releaseGrade).value;
            && Frozen(suite) && (releaseGrade ==> ReleaseGrade(suite.inputs)) && suite.digest == digest(suite.inputs)
            && multiset(suite.inputs.tasks) == multiset(candidate.tasks)
            && multiset(suite.inputs.repositories) == multiset(candidate.repositories)
  {
    hide Strip, Sort, ReleaseGrade;
    ByTextIsTotal(RepositoryId());
    SortSorts(candidate.repositories, ByText(RepositoryId()));
    StripTwice(candidate.suiteId);
    ByTextIsTotal(TaskId());
    SortSorts(candidate.tasks, ByText(TaskId()));
    TimeIsNoGrade(Freeze(candidate, digest, releaseGrade).value.inputs, candidate.frozenAt);
  }

  lemma TimeIsNoGrade(inputs: Inputs, time: string)
    ensures ReleaseGrade(inputs) == ReleaseGrade(inputs.(frozenAt := time))
  {
  }

  function IdentityOf(suite: Suite, cell: (GoldenTask, int, Arm)): Identity {
    Identity(suite.digest, cell.0.id, cell.1, cell.2)
  }

  /** No two identities of this suite share a digest, short as it may be. */
  ghost predicate NoCollision(suite: Suite, digest: Identity -> string) {
    forall c, d :: c in PlannedCells(suite) && d in PlannedCells(suite)
      ==> (digest(IdentityOf(suite, c)) == digest(IdentityOf(suite, d))
           ==> IdentityOf(suite, c) == IdentityOf(suite, d))
  }

  /** The plan is the product of tasks, seeds and arms, one entry for each combination; its execution
      ids are unique if and only if no two of its own identities collide. */
  lemma PlanIsTheProduct(suite: Suite, digest: Identity -> string)
    requires Frozen(suite)
    ensures var entries := EntriesOf(suite, PlannedCells(suite), digest);
            && |entries| == 3 * |suite.inputs.seeds| * |suite.inputs.tasks|
            && (DistinctBy(entries, (e: Entry) => e.executionId) <==> NoCollision(suite, digest))
            && forall e :: e in entries <==>
                 exists t, seed, arm ::
                   t in suite.inputs.tasks && seed in suite.inputs.seeds && e == EntryOf(suite, t, seed, arm, digest)
  {
    hide Sort, Cells, PlannedCells, EntryOf, NoCollision, Frozen;
    var cells, entries := PlannedCells(suite), EntriesOf(suite, PlannedCells(suite), digest);
    CellsOfSuite(suite);
    UniqueIffNoCollision(suite, digest);
    forall t, seed, arm | t in suite.inputs.tasks && seed in suite.inputs.seeds
      ensures EntryOf(suite, t, seed, arm, digest) in entries
    {
      assert (t, seed, arm) in cells;
      var k :| 0 <= k < |cells| && cells[k] == (t, seed, arm);
      assert entries[k] == EntryOf(suite, t, seed, arm, digest);
    }
    forall e | e in entries
      ensures exists t, seed, arm ::
                t in suite.inputs.tasks && seed in suite.inputs.seeds && e == EntryOf(suite, t, seed, arm, digest)
    {
      var k :| 0 <= k < |entries| && entries[k] == e;
      assert cells[k] in cells;
      assert e == EntryOf(suite, cells[k].0, cells[k].1, cells[k].2, digest);
    }
  }

  lemma CellsOfSuite(suite: Suite)
    requires Frozen(suite)
    ensures var cells := PlannedCells(suite);
            && |cells| == 3 * |suite.inputs.seeds| * |suite.inputs.tasks| && Distinct(cells)
            && forall c :: c in cells <==> c.0 in suite.inputs.tasks && c.1 in suite.inputs.seeds
  {
    hide Sort, Cells, Frozen;
    var tasks, seeds := Sort(suite.inputs.tasks, ByText(TaskId())), Sort(suite.inputs.seeds, IntLeq());
    SortedInputs(suite);
    CellsSize(tasks, seeds);
    CellsAreDistinct(tasks, seeds);
    CellsContain(tasks, seeds);
    forall c: (GoldenTask, int, Arm)
      ensures c in PlannedCells(suite) <==> c.0 in suite.inputs.tasks && c.1 in suite.inputs.seeds
    {
      assert c in PlannedCells(suite) <==> c.0 in tasks && c.1 in seeds;
      assert c.0 in tasks <==> c.0 in suite.inputs.tasks;
      var seed: int := c.1;
      assert seed in seeds <==> seed in suite.inputs.seeds;
    }
  }

  lemma SameIdentity(suite: Suite, c: (GoldenTask, int, Arm), d: (GoldenTask, int, Arm))
    requires Frozen(suite) && c.0 in suite.inputs.tasks && d.0 in suite.inputs.tasks
    requires IdentityOf(suite, c) == IdentityOf(suite, d)
    ensures c == d
  {
    var i :| 0 <= i < |suite.inputs.tasks| && suite.inputs.tasks[i] == c.0;
    var j :| 0 <= j < |suite.inputs.tasks| && suite.inputs.tasks[j] == d.0;
    assert TaskId()(c.0) == TaskId()(d.0);
  }

  lemma UniqueIffNoCollision(suite: Suite, digest: Identity -> string)
    requires Frozen(suite)
    ensures DistinctBy(EntriesOf(suite, PlannedCells(suite), digest), (e: Entry) => e.executionId)
        <==> NoCollision(suite, digest)
  {
    hide PlannedCells, Frozen, EntryOf, IdentityOf;
    var cells, entries := PlannedCells(suite), EntriesOf(suite, PlannedCells(suite), digest);
    CellsOfSuite(suite);
    if NoCollision(suite, digest) {
      forall i, j | 0 <= i < j < |cells| ensures entries[i].executionId != entries[j].executionId {
        assert cells[i] in cells && cells[j] in cells && cells[i] != cells[j];
        SameExecutionId(suite, digest, cells[i], cells[j]);
        if IdentityOf(suite, cells[i]) == IdentityOf(suite, cells[j]) { SameIdentity(suite, cells[i], cells[j]); }
      }
    } else {
      var c, d :| c in cells && d in cells && digest(IdentityOf(suite, c)) == digest(IdentityOf(suite, d))
        && IdentityOf(suite, c) != IdentityOf(suite, d);
      var i :| 0 <= i < |cells| && cells[i] == c;
      var j :| 0 <= j < |cells| && cells[j] == d;
      SameExecutionId(suite, digest, c, d);
      TwoAlike(entries, (e: Entry) => e.executionId, i, j);
    }
  }

  lemma TwoAlike<T>(s: seq<T>, key: T -> string, i: nat, j: nat)
    requires i < |s| && j < |s| && i != j && key(s[i]) == key(s[j])
    ensures !DistinctBy(s, key)
  {
    var a, b := if i < j then i else j, if i < j then j else i;
    assert key(s[a]) == key(s[b]);
  }

  lemma SameExecutionId(suite: Suite, digest: Identity -> string, c: (GoldenTask, int, Arm), d: (GoldenTask, int, Arm))
    ensures EntryOf(suite, c.0, c.1, c.2, digest).executionId == EntryOf(suite, d.0, d.1, d.2, digest).executionId
            <==> digest(IdentityOf(suite, c)) == digest(IdentityOf(suite, d))
  {
    var x, y := IdentityOf(suite, c), IdentityOf(suite, d);
    assert ExecutionId(digest, x)[8..] == digest(x) && ExecutionId(digest, y)[8..] == digest(y);
  }

  lemma SortedInputs(suite: Suite)
    requires Frozen(suite)
    ensures var tasks, seeds := Sort(suite.inputs.tasks, ByText(TaskId())), Sort(suite.inputs.seeds, IntLeq());
            && |tasks| == |suite.inputs.tasks| && |seeds| == |suite.inputs.seeds| && Distinct(tasks) && Distinct(seeds)
            && (forall t :: t in tasks <==> t in suite.inputs.tasks)
            && forall x :: x in seeds <==> x in suite.inputs.seeds
  {
    var tasks, seeds := Sort(suite.inputs.tasks, ByText(TaskId())), Sort(suite.inputs.seeds, IntLeq());
    ByTextIsTotal(TaskId());
    SortSorts(suite.inputs.tasks, ByText(TaskId()));
    SortSorts(suite.inputs.seeds, IntLeq());
    DistinctInAnyOrder(suite.inputs.tasks, tasks);
    DistinctInAnyOrder(suite.inputs.seeds, seeds);
    assert |multiset(tasks)| == |multiset(suite.inputs.tasks)| && |multiset(seeds)| == |multiset(suite.inputs.seeds)|;
  }

  // ----- saving and loading -----

  /** `_text`: stripped, and refused when nothing is left. */
  predicate IsText(s: string) { s != "" && Strip(s) == s }

  /** One entry of `DogfoodPlan.from_dict`. */
  function LoadEntry(e: Entry, sha: string -> string): Checked<Entry> {
    var loaded := e.(
      executionId := Strip(e.executionId), taskId := Strip(e.taskId), repositoryId := Strip(e.repositoryId),
      baseCommit := Strip(e.baseCommit), prompt := Strip(e.prompt), promptSha := Strip(e.promptSha),
      taskClass := Strip(e.taskClass), riskClass := Strip(e.riskClass),
      acceptance := seq(|e.acceptance|, i requires 0 <= i < |e.acceptance| => Strip(e.acceptance[i])));
    if e.acceptance == [] then Fail(NoAcceptance)
    else if "" in [loaded.executionId, loaded.taskId, loaded.repositoryId, loaded.baseCommit, loaded.prompt,
                   loaded.promptSha, loaded.taskClass, loaded.riskClass] + loaded.acceptance then Fail(EmptyText)
    else if e.seed < 0 then Fail(NegativeSeed)
    else if loaded.promptSha != sha(loaded.prompt) then Fail(PromptMismatch)
    else Pass(loaded)
  }

  function LoadEntries(entries: seq<Entry>, sha: string -> string): Checked<seq<Entry>> {
    if entries == [] then Pass([])
    else
      match LoadEntry(entries[0], sha)
      case Fail(p) => Fail(p)
      case Pass(e) =>
        match LoadEntries(entries[1..], sha)
        case Fail(p) => Fail(p)
        case Pass(es) => Pass([e] + es)
  }

  /** `DogfoodPlan.from_dict` of a plan's own `to_dict`. */
  ghost function LoadPlan(p: Plan, sha: string -> string, planDigest: Plan -> string): Checked<Plan> {
    if p.entries == [] then Fail(NothingToRun)
    else
      match LoadEntries(p.entries, sha)
      case Fail(problem) => Fail(problem)
      case Pass(entries) =>
        var loaded := Plan(Strip(p.suiteId), Strip(p.suiteDigest), Strip(p.createdAt), p.model, entries,
                           Strip(p.digest));
        if "" in [loaded.suiteId, loaded.suiteDigest, loaded.createdAt, loaded.digest] then Fail(EmptyText)
        else if loaded.digest != planDigest(Unsigned(loaded)) then Fail(DigestMismatch)
        else if !DistinctBy(loaded.entries, (e: Entry) => e.executionId) then Fail(DuplicateExecution)
        else Pass(loaded)
  }

  /** What the parsers of the suite establish for each task. */
  ghost predicate WellFormedTask(t: GoldenTask, sha: string -> string) {
    && IsText(t.id) && IsText(t.repositoryId) && IsText(t.prompt) && IsText(t.promptSha)
    && IsText(t.taskClass) && IsText(t.riskClass) && t.promptSha == sha(t.prompt)
    && t.acceptance != [] && forall i :: 0 <= i < |t.acceptance| ==> IsText(t.acceptance[i])
  }

  predicate IsHex(s: string) {
    s != "" && forall i :: 0 <= i < |s| ==> '0' <= s[i] <= '9' || 'a' <= s[i] <= 'f'
  }

  lemma HexIsText(prefix: string, s: string)
    requires IsHex(s) && (prefix == "" || !IsSpace(prefix[0]))
    ensures IsText(prefix + s)
  {
    var t := prefix + s;
    assert t[0] == if prefix == "" then s[0] else prefix[0];
    assert t[|t| - 1] == s[|s| - 1];
  }

  lemma EntryLoads(suite: Suite, t: GoldenTask, seed: int, arm: Arm, digest: Identity -> string, sha: string -> string)
    requires WellFormedTask(t, sha) && seed >= 0 && forall x :: IsHex(digest(x))
    requires IsHex(BaseCommit(suite.inputs.repositories, t.repositoryId))
    ensures LoadEntry(EntryOf(suite, t, seed, arm, digest), sha) == Pass(EntryOf(suite, t, seed, arm, digest))
  {
    hide Strip, IsHex;
    HexIsText("dogfood-", digest(Identity(suite.digest, t.id, seed, arm)));
    HexIsText("", BaseCommit(suite.inputs.repositories, t.repositoryId));
    assert "" + BaseCommit(suite.inputs.repositories, t.repositoryId)
        == BaseCommit(suite.inputs.repositories, t.repositoryId);
    var e := EntryOf(suite, t, seed, arm, digest);
    var stripped := seq(|e.acceptance|, i requires 0 <= i < |e.acceptance| => Strip(e.acceptance[i]));
    assert stripped == e.acceptance;
    forall i | 0 <= i < |stripped| ensures stripped[i] != "" { assert IsText(t.acceptance[i]); }
  }

  lemma {:induction false} EntriesLoad(entries: seq<Entry>, sha: string -> string)
    requires forall e :: e in entries ==> LoadEntry(e, sha) == Pass(e)
    ensures LoadEntries(entries, sha) == Pass(entries)
  {
    hide LoadEntry;
    if entries != [] {
      EntriesLoad(entries[1..], sha);
      assert entries[0] in entries && entries == [entries[0]] + entries[1..];
    }
  }

  /** What the parsers of the suite establish for all its parts. */
  ghost predicate WellFormed(suite: Suite, sha: string -> string) {
    && Frozen(suite) && IsHex(suite.digest) && (forall t :: t in suite.inputs.tasks ==> WellFormedTask(t, sha))
    && forall r :: r in suite.inputs.repositories ==> IsHex(r.baseCommit)
  }

  /** A plan built from a frozen suite of well-formed parts loads back as it was saved, if and only if
      no two identities of the suite collide. */
  lemma SavedPlanLoads(suite: Suite, plan: Plan, digest: Identity -> string, sha: string -> string,
                       planDigest: Plan -> string)
    requires WellFormed(suite, sha) && IsPlanOf(plan, suite, digest, planDigest) && IsText(plan.createdAt)
    requires (forall x :: IsHex(digest(x))) && IsHex(plan.digest)
    ensures LoadPlan(plan, sha, planDigest) == Pass(plan) <==> NoCollision(suite, digest)
  {
    hide PlannedCells, LoadEntry, LoadEntries, WellFormedTask, Strip, IsHex, NoCollision, EntriesOf;
    PlanIsTheProduct(suite, digest);
    forall e | e in plan.entries ensures LoadEntry(e, sha) == Pass(e) {
      var t, seed, arm :| t in suite.inputs.tasks && seed in suite.inputs.seeds
          && e == EntryOf(suite, t, seed, arm, digest);
      BaseCommitIs(suite.inputs.repositories, t.repositoryId);
      EntryLoads(suite, t, seed, arm, digest, sha);
    }
    EntriesLoad(plan.entries, sha);
    HexIsText("", suite.digest);
    HexIsText("", plan.digest);
    assert "" + suite.digest == suite.digest && "" + plan.digest == plan.digest;
    Positive(|suite.inputs.seeds|, |suite.inputs.tasks|);
  }

  lemma Positive(a: nat, b: nat)
    requires a > 0 && b > 0
    ensures 3 * a * b > 0
  {
  }

  predicate Collide(x: Plan, y: Plan, planDigest: Plan -> string) {
    Unsigned(x) != Unsigned(y) && planDigest(Unsigned(x)) == planDigest(Unsigned(y))
  }

  /** A file that keeps the digest of a plan and loads holds that plan, unless what it holds collides with
      it: altered in any other way under its digest, the file fails to load. */
  lemma DigestFixesThePlan(a: Plan, b: Plan, sha: string -> string, planDigest: Plan -> string)
    requires LoadPlan(a, sha, planDigest).Pass? && Strip(a.digest) == Strip(b.digest)
    ensures LoadPlan(b, sha, planDigest).Fail? || LoadPlan(b, sha, planDigest) == LoadPlan(a, sha, planDigest)
            || Collide(LoadPlan(a, sha, planDigest).value, LoadPlan(b, sha, planDigest).value, planDigest)
  {
    hide LoadEntries, Strip;
  }
}
