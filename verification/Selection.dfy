/** `select_validation_tasks` of src/claim_plane/validation.py: a repository-diverse choice
    of tasks, popped round robin from one shuffled pool per family. The shuffles are arbitrary
    permutations. */
module Selection {
  import opened Sums
  import opened Ordering

  datatype Task = Task(id: string, family: string)

  datatype Failure = CountNotPositive | TooFewRepositories | CatalogTooSmall | CouldSelectOnly(n: nat)
  datatype Selected = Chosen(tasks: seq<Task>) | Refused(why: Failure)

  function ById(): (Task, Task) -> bool { ByText((t: Task) => t.id) }

  function ByName(): (string, string) -> bool { ByText((x: string) => x) }

  function InFamily(f: string): Task -> int { (t: Task) => if t.family == f then 1 else 0 }

  /** How many of the tasks belong to the family. */
  function Picks(tasks: seq<Task>, f: string): int { SumOf(tasks, InFamily(f)) }

  type Pools = map<string, seq<Task>>

  function PoolOf(pools: Pools, f: string): seq<Task> { if f in pools then pools[f] else [] }

  ghost function Names(xs: seq<string>): set<string> { set x | x in xs }


  // ----- grouping -----

  /** The families in order of first appearance, each with its tasks. */
  ghost predicate Grouped(catalog: seq<Task>, families: seq<string>, pools: Pools) {
    && Distinct(families)
    && Names(families) == pools.Keys
    && (forall f :: f in pools ==> pools[f] != [])
    && OwnPools(pools)
    && Conserved(catalog, [], pools)
  }

  /** A pool holds tasks of its own family only. */
  ghost predicate OwnPools(pools: Pools) {
    forall f, t :: f in pools && t in pools[f] ==> t.family == f
  }

  /** Every task of the catalogue is either selected or still in the pool of its family. */
  ghost predicate Conserved(catalog: seq<Task>, selected: seq<Task>, pools: Pools) {
    forall t :: multiset(selected)[t] + multiset(PoolOf(pools, t.family))[t] == multiset(catalog)[t]
  }

  lemma GroupConserves(catalog: seq<Task>, pools: Pools, t: Task)
    requires Conserved(catalog, [], pools)
    ensures Conserved(catalog + [t], [], pools[t.family := PoolOf(pools, t.family) + [t]])
  {
  }

  lemma GroupOwns(pools: Pools, t: Task)
    requires OwnPools(pools)
    ensures OwnPools(pools[t.family := PoolOf(pools, t.family) + [t]])
  {
  }

  lemma AddName(families: seq<string>, f: string)
    requires Distinct(families)
    ensures Names(families + [f]) == Names(families) + {f}
    ensures f !in Names(families) ==> Distinct(families + [f])
  {
  }

  /** `grouped.setdefault(family, []).append(item)` */
  lemma GroupOne(catalog: seq<Task>, families: seq<string>, pools: Pools, t: Task)
    requires Grouped(catalog, families, pools)
    ensures var pools' := pools[t.family := PoolOf(pools, t.family) + [t]];
            Grouped(catalog + [t], if t.family in pools then families else families + [t.family], pools')
  {
    hide Conserved, OwnPools, Names, Distinct, PoolOf;
    GroupConserves(catalog, pools, t);
    GroupOwns(pools, t);
    AddName(families, t.family);
    assert PoolOf(pools, t.family) + [t] != [];
  }

  method GroupByFamily(catalog: seq<Task>) returns (families: seq<string>, pools: Pools)
    ensures Grouped(catalog, families, pools)
  {
    families, pools := [], map[];
    assert Grouped([], families, pools);
    hide Grouped;
    for k := 0 to |catalog|
      invariant Grouped(catalog[..k], families, pools)
    {
      var t := catalog[k];
      assert catalog[..k + 1] == catalog[..k] + [t];
      GroupOne(catalog[..k], families, pools, t);
      if t.family !in pools { families := families + [t.family]; }
      pools := pools[t.family := PoolOf(pools, t.family) + [t]];
    }
    assert catalog[..|catalog|] == catalog;
  }

  lemma ReorderPool(catalog: seq<Task>, families: seq<string>, pools: Pools, f: string, pool: seq<Task>)
    requires Grouped(catalog, families, pools) && f in pools && multiset(pool) == multiset(pools[f])
    ensures Grouped(catalog, families, pools[f := pool])
  {
    assert |multiset(pool)| == |pool| && |multiset(pools[f])| == |pools[f]|;
    forall t | t in pool ensures t.family == f {
      assert t in multiset(pool);
      assert t in pools[f];
    }
  }

  /** `values.sort(...)`, `rng.shuffle(values)` for every pool. */
  method ShufflePools(catalog: seq<Task>, families: seq<string>, grouped: Pools,
                      shuffle: (string, seq<Task>) -> seq<Task>)
    returns (pools: Pools)
    requires Grouped(catalog, families, grouped)
    requires forall f, s :: multiset(shuffle(f, s)) == multiset(s)
    ensures Grouped(catalog, families, pools)
  {
    ByTextIsTotal((t: Task) => t.id);
    hide Sort;
    pools := grouped;
    for k := 0 to |families|
      invariant Grouped(catalog, families, pools)
    {
      var f := families[k];
      assert f in pools;
      var shuffled := shuffle(f, Sort(pools[f], ById()));
      SortSorts(pools[f], ById());
      ReorderPool(catalog, families, pools, f, shuffled);
      pools := pools[f := shuffled];
    }
  }

  /** `grouped[family].pop()` */
  lemma PopConserves(catalog: seq<Task>, selected: seq<Task>, pools: Pools, f: string)
    requires f in pools && pools[f] != [] && OwnPools(pools) && Conserved(catalog, selected, pools)
    ensures var last := pools[f][|pools[f]| - 1];
            var pools' := pools[f := pools[f][..|pools[f]| - 1]];
            && last.family == f && OwnPools(pools') && Conserved(catalog, selected + [last], pools')
  {
    var pool := pools[f];
    assert pool == pool[..|pool| - 1] + [pool[|pool| - 1]];
    assert pool[|pool| - 1] in pool;
  }

  lemma PickOne(selected: seq<Task>, t: Task, g: string)
    ensures Picks(selected + [t], g) == Picks(selected, g) + (if t.family == g then 1 else 0)
  {
    SumOfConcat(selected, [t], InFamily(g));
  }

  // ----- Python slices -----

  /** `xs[:n]` for any integer n. */
  function Slice<T>(xs: seq<T>, n: int): (r: seq<T>)
    ensures r <= xs && (0 <= n <= |xs| ==> |r| == n)
  {
    if n >= 0 then xs[..if n <= |xs| then n else |xs|]
    else xs[..if |xs| + n >= 0 then |xs| + n else 0]
  }

  function Without(xs: seq<string>, taken: seq<string>): seq<string> {
    if xs == [] then []
    else (if xs[0] in taken then [] else [xs[0]]) + Without(xs[1..], taken)
  }

  lemma {:induction false} WithoutPrefix(xs: seq<string>, k: nat, taken: seq<string>)
    requires k <= |xs|
    requires forall i :: 0 <= i < |xs| ==> (xs[i] in taken <==> i < k)
    ensures Without(xs, taken) == xs[k..]
    decreases |xs|
  {
    if xs != [] {
      assert forall i :: 0 <= i < |xs[1..]| ==> xs[1..][i] == xs[i + 1];
      WithoutPrefix(xs[1..], if k == 0 then 0 else k - 1, taken);
      if k > 0 { assert xs[1..][k - 1..] == xs[k..]; }
    }
  }

  /** Required families first and then the others: the shuffled order itself. */
  lemma CycleIsFamilies(families: seq<string>, n: int)
    requires Distinct(families)
    ensures Slice(families, n) + Without(families, Slice(families, n)) == families
  {
    var required := Slice(families, n);
    WithoutPrefix(families, |required|, required);
  }

  // ----- picking -----

  /** Where the round robin stands: whole rounds done and the position within the cycle. */
  datatype Turn = Turn(rounds: nat, at: nat) {
    function Next(n: nat): Turn {
      if at + 1 < n then Turn(rounds, at + 1) else Turn(rounds + 1, 0)
    }

    /** How often position p had its turn. */
    function Visits(p: nat): nat { rounds + (if p < at then 1 else 0) }
  }

  lemma Multiple(d: int, n: nat)
    ensures d >= 1 ==> d * n >= n
    ensures d <= -1 ==> d * n <= 0 - n
  {
  }

  ghost predicate IsTurn(n: nat, index: nat, turn: Turn) {
    turn.at < n && index == turn.rounds * n + turn.at
  }

  /** `index % len(cycle)` is the position of the turn. */
  lemma TurnOfIndex(n: nat, index: nat, turn: Turn)
    requires IsTurn(n, index, turn)
    ensures turn.at < n && index % n == turn.at && IsTurn(n, index + 1, turn.Next(n))
  {
    var d := index / n - turn.rounds;
    assert d * n == index / n * n - turn.rounds * n;
    Multiple(d, n);
    assert (turn.rounds + 1) * n == turn.rounds * n + n;
  }

  /** A family that still has tasks was picked at every visit; the others at most that often. */
  ghost predicate PickedByVisits(cycle: seq<string>, required: nat, turn: Turn, selected: seq<Task>, pools: Pools)
  {
    forall p :: 0 <= p < |cycle| ==>
      var due := turn.Visits(p) + (if p < required then 1 else 0);
      && Picks(selected, cycle[p]) <= due
      && (PoolOf(pools, cycle[p]) != [] ==> Picks(selected, cycle[p]) == due)
      && (p < required ==> Picks(selected, cycle[p]) >= 1)
  }

  /** A family with tasks left over was picked at most once less than any other, and at most
      twice less if only the other one is required. */
  ghost predicate Balanced(families: seq<string>, required: nat, selected: seq<Task>, pools: Pools)
  {
    forall p, q :: 0 <= p < |families| && 0 <= q < |families| && PoolOf(pools, families[p]) != [] ==>
      Picks(selected, families[q]) <= Picks(selected, families[p]) + (if q < required <= p then 2 else 1)
  }

  lemma VisitsAreBalanced(cycle: seq<string>, required: nat, turn: Turn, selected: seq<Task>, pools: Pools)
    requires PickedByVisits(cycle, required, turn, selected, pools)
    ensures Balanced(cycle, required, selected, pools)
    ensures forall p :: 0 <= p < |cycle| && p < required ==> Picks(selected, cycle[p]) >= 1
  {
    hide Picks;
  }

  lemma PickIsVisit(cycle: seq<string>, required: nat, turn: Turn, selected: seq<Task>, pools: Pools)
    requires Distinct(cycle)
    requires turn.at < |cycle| && PoolOf(pools, cycle[turn.at]) != [] && OwnPools(pools)
    requires PickedByVisits(cycle, required, turn, selected, pools)
    ensures var f := cycle[turn.at];
            var last := |pools[f]| - 1;
            PickedByVisits(cycle, required, turn.Next(|cycle|), selected + [pools[f][last]],
                           pools[f := pools[f][..last]])
  {
    hide Picks;
    var f := cycle[turn.at];
    var t := pools[f][|pools[f]| - 1];
    assert t in pools[f];
    forall p | 0 <= p < |cycle|
      ensures Picks(selected + [t], cycle[p]) == Picks(selected, cycle[p]) + (if p == turn.at then 1 else 0)
    {
      PickOne(selected, t, cycle[p]);
    }
  }

  lemma SkipIsVisit(cycle: seq<string>, required: nat, turn: Turn, selected: seq<Task>, pools: Pools)
    requires turn.at < |cycle| && PoolOf(pools, cycle[turn.at]) == []
    requires PickedByVisits(cycle, required, turn, selected, pools)
    ensures PickedByVisits(cycle, required, turn.Next(|cycle|), selected, pools)
  {
    hide Picks;
  }

  /** The pools seen during the last `seen` turns were all empty. */
  ghost predicate EmptySince(cycle: seq<string>, pools: Pools, at: nat, seen: nat)
  {
    forall p :: 0 <= p < |cycle| && (at - seen <= p < at || at - seen + |cycle| <= p) ==> PoolOf(pools, cycle[p]) == []
  }

  lemma SkipIsEmpty(cycle: seq<string>, pools: Pools, turn: Turn, seen: nat)
    requires turn.at < |cycle| && PoolOf(pools, cycle[turn.at]) == [] && seen < |cycle|
    requires EmptySince(cycle, pools, turn.at, seen)
    ensures EmptySince(cycle, pools, turn.Next(|cycle|).at, seen + 1)
  {
  }

  lemma NothingSeen(cycle: seq<string>, pools: Pools, turn: Turn)
    requires turn.at <= |cycle|
    ensures EmptySince(cycle, pools, turn.at, 0)
  {
  }

  /** If nothing is left in the pools, everything has been selected. */
  lemma AllSelected(catalog: seq<Task>, selected: seq<Task>, pools: Pools)
    requires Conserved(catalog, selected, pools) && forall f :: f in pools ==> pools[f] == []
    ensures |selected| == |catalog|
  {
    assert multiset(selected) == multiset(catalog);
    assert |multiset(selected)| == |selected| && |multiset(catalog)| == |catalog|;
  }

  /** The first pick from each required family. */
  ghost predicate FirstPicks(families: seq<string>, k: nat, selected: seq<Task>) {
    |selected| == k &&
    forall p :: 0 <= p < |families| ==> Picks(selected, families[p]) == if p < k then 1 else 0
  }

  lemma NextFirstPick(families: seq<string>, k: nat, selected: seq<Task>, t: Task)
    requires Distinct(families)
    requires k < |families| && t.family == families[k] && FirstPicks(families, k, selected)
    ensures FirstPicks(families, k + 1, selected + [t])
  {
    hide Picks;
    forall p | 0 <= p < |families|
      ensures Picks(selected + [t], families[p]) == if p < k + 1 then 1 else 0
    {
      PickOne(selected, t, families[p]);
    }
  }

  method TakeRequired(catalog: seq<Task>, families: seq<string>, required: seq<string>, grouped: Pools)
    returns (selected: seq<Task>, pools: Pools)
    requires Grouped(catalog, families, grouped) && required <= families
    ensures pools.Keys == grouped.Keys && OwnPools(pools) && Conserved(catalog, selected, pools)
    ensures |selected| == |required| && FirstPicks(families, |required|, selected)
  {
    hide Conserved, OwnPools, Picks;
    selected, pools := [], grouped;
    assert FirstPicks(families, 0, []) by { NoPicks(families); }
    for k := 0 to |required|
      invariant pools.Keys == grouped.Keys && OwnPools(pools) && Conserved(catalog, selected, pools)
      invariant forall p :: k <= p < |families| ==> pools[families[p]] == grouped[families[p]]
      invariant FirstPicks(families, k, selected)
    {
      var f := required[k];
      assert f == families[k] && f in families;
      var pool := pools[f];
      PopConserves(catalog, selected, pools, f);
      NextFirstPick(families, k, selected, pool[|pool| - 1]);
      selected := selected + [pool[|pool| - 1]];
      pools := pools[f := pool[..|pool| - 1]];
    }
  }

  lemma NoPicks(families: seq<string>)
    ensures FirstPicks(families, 0, [])
  {
  }

  lemma SomePoolIsLeft(catalog: seq<Task>, cycle: seq<string>, selected: seq<Task>, pools: Pools, at: nat, seen: nat)
    requires Names(cycle) == pools.Keys
    requires Conserved(catalog, selected, pools) && |selected| < |catalog|
    requires at < |cycle| && seen <= |cycle| && EmptySince(cycle, pools, at, seen)
    ensures seen < |cycle|
    ensures !forall f :: f in pools ==> pools[f] == []
  {
    if forall f :: f in pools ==> pools[f] == [] {
      AllSelected(catalog, selected, pools);
    }
  }

  /** Where the round robin stands. */
  ghost predicate Going(catalog: seq<Task>, cycle: seq<string>, required: nat, index: nat, turn: Turn, seen: nat,
                        selected: seq<Task>, pools: Pools)
  {
    && Names(cycle) == pools.Keys
    && Distinct(cycle)
    && OwnPools(pools) && Conserved(catalog, selected, pools)
    && IsTurn(|cycle|, index, turn) && PickedByVisits(cycle, required, turn, selected, pools)
    && seen <= |cycle| && EmptySince(cycle, pools, turn.at, seen)
  }

  /** Some pool is left as long as tasks are missing, so the search for it ends. */
  lemma GoingOn(catalog: seq<Task>, cycle: seq<string>, required: nat, index: nat, turn: Turn, seen: nat,
                selected: seq<Task>, pools: Pools)
    requires Going(catalog, cycle, required, index, turn, seen, selected, pools) && |selected| < |catalog|
    ensures turn.at < |cycle| && index % |cycle| == turn.at && cycle[turn.at] in pools
    ensures seen < |cycle|
    ensures !forall f :: f in pools ==> pools[f] == []
  {
    TurnOfIndex(|cycle|, index, turn);
    SomePoolIsLeft(catalog, cycle, selected, pools, turn.at, seen);
    hide *;
  }

  lemma GoingPick(catalog: seq<Task>, cycle: seq<string>, required: nat, index: nat, turn: Turn, seen: nat,
                  selected: seq<Task>, pools: Pools)
    requires Going(catalog, cycle, required, index, turn, seen, selected, pools)
    requires turn.at < |cycle| && cycle[turn.at] in pools && pools[cycle[turn.at]] != []
    ensures var f := cycle[turn.at];
            var last := |pools[f]| - 1;
            Going(catalog, cycle, required, index + 1, turn.Next(|cycle|), 0,
                  selected + [pools[f][last]], pools[f := pools[f][..last]])
  {
    hide IsTurn, PickedByVisits, Conserved, EmptySince;
    var f := cycle[turn.at];
    TurnOfIndex(|cycle|, index, turn);
    PickIsVisit(cycle, required, turn, selected, pools);
    PopConserves(catalog, selected, pools, f);
    NothingSeen(cycle, pools[f := pools[f][..|pools[f]| - 1]], turn.Next(|cycle|));
  }

  lemma GoingSkip(catalog: seq<Task>, cycle: seq<string>, required: nat, index: nat, turn: Turn, seen: nat,
                  selected: seq<Task>, pools: Pools)
    requires Going(catalog, cycle, required, index, turn, seen, selected, pools)
    requires turn.at < |cycle| && cycle[turn.at] in pools && pools[cycle[turn.at]] == [] && seen < |cycle|
    ensures Going(catalog, cycle, required, index + 1, turn.Next(|cycle|), seen + 1, selected, pools)
  {
    hide IsTurn, PickedByVisits, Conserved, EmptySince;
    TurnOfIndex(|cycle|, index, turn);
    SkipIsVisit(cycle, required, turn, selected, pools);
    SkipIsEmpty(cycle, pools, turn, seen);
  }

  lemma GoingStarts(catalog: seq<Task>, cycle: seq<string>, required: nat, first: seq<Task>, pools: Pools)
    requires OwnPools(pools) && Conserved(catalog, first, pools) && cycle != []
    requires Names(cycle) == pools.Keys
    requires Distinct(cycle)
    requires FirstPicks(cycle, required, first)
    ensures Going(catalog, cycle, required, 0, Turn(0, 0), 0, first, pools)
  {
    hide Picks, Conserved, OwnPools;
    NothingSeen(cycle, pools, Turn(0, 0));
  }

  /** What the loop leaves behind. */
  ghost predicate Settled(catalog: seq<Task>, cycle: seq<string>, required: nat, selected: seq<Task>, pools: Pools) {
    && OwnPools(pools) && Conserved(catalog, selected, pools) && Balanced(cycle, required, selected, pools)
    && forall p :: 0 <= p < |cycle| && p < required ==> Picks(selected, cycle[p]) >= 1
  }

  lemma GoingEnds(catalog: seq<Task>, cycle: seq<string>, required: nat, index: nat, turn: Turn, seen: nat,
                  selected: seq<Task>, pools: Pools)
    requires Going(catalog, cycle, required, index, turn, seen, selected, pools)
    ensures Settled(catalog, cycle, required, selected, pools)
  {
    hide Picks, Conserved, OwnPools;
    VisitsAreBalanced(cycle, required, turn, selected, pools);
  }

  method RoundRobin(catalog: seq<Task>, cycle: seq<string>, required: nat, taskCount: int, first: seq<Task>,
                    grouped: Pools)
    returns (selected: seq<Task>, pools: Pools)
    requires Going(catalog, cycle, required, 0, Turn(0, 0), 0, first, grouped)
    requires |first| <= taskCount <= |catalog|
    ensures |selected| == taskCount && Settled(catalog, cycle, required, selected, pools)
  {
    hide *;
    selected, pools := first, grouped;
    var index := 0;
    ghost var turn, seen := Turn(0, 0), 0;
    while |selected| < taskCount
      invariant |selected| <= taskCount
      invariant Going(catalog, cycle, required, index, turn, seen, selected, pools)
      decreases taskCount - |selected|, |cycle| - seen
    {
      GoingOn(catalog, cycle, required, index, turn, seen, selected, pools);
      var family := cycle[index % |cycle|];
      index := index + 1;
      if pools[family] != [] {
        GoingPick(catalog, cycle, required, index - 1, turn, seen, selected, pools);
        var pool := pools[family];
        selected := selected + [pool[|pool| - 1]];
        pools := pools[family := pool[..|pool| - 1]];
        seen := 0;
      } else if forall f :: f in pools ==> pools[f] == [] {
        assert false;  // the early exit of the source
      } else {
        GoingSkip(catalog, cycle, required, index - 1, turn, seen, selected, pools);
        seen := seen + 1;
      }
      turn := turn.Next(|cycle|);
    }
    GoingEnds(catalog, cycle, required, index, turn, seen, selected, pools);
  }

  // ----- the operation -----

  /** The families that occur among the tasks. */
  ghost function FamiliesOf(tasks: seq<Task>): set<string> { set t | t in tasks :: t.family }

  /** A family with tasks not chosen got at most one task less than any other, and at most two
      less if only the other one is required. */
  ghost predicate FairShares(catalog: seq<Task>, families: seq<string>, required: nat, tasks: seq<Task>) {
    forall p, q ::
      0 <= p < |families| && 0 <= q < |families| && Picks(tasks, families[p]) < Picks(catalog, families[p])
      ==> Picks(tasks, families[q]) <= Picks(tasks, families[p]) + (if q < required <= p then 2 else 1)
  }

  /** `select_validation_tasks`. Every outcome is decided by four counts; whatever the
      shuffles, a choice has the size asked for, repeats no catalogue entry, takes from each
      required family, and is balanced. `families` is the shuffled order, whose first
      `required` names are the required ones. */
  method SelectValidationTasks(catalog: seq<Task>, taskCount: int, minimumRepositories: int,
                               shuffleFamilies: seq<string> -> seq<string>,
                               shufflePool: (string, seq<Task>) -> seq<Task>)
    returns (r: Selected, ghost families: seq<string>, ghost required: nat)
    requires forall s :: multiset(shuffleFamilies(s)) == multiset(s)
    requires forall f, s :: multiset(shufflePool(f, s)) == multiset(s)
    ensures taskCount < 1 ==> r == Refused(CountNotPositive)
    ensures taskCount >= 1 ==>
              && Distinct(families) && Names(families) == FamiliesOf(catalog)
              && required == |Slice(families, minimumRepositories)|
    ensures taskCount >= 1 && |families| < minimumRepositories ==> r == Refused(TooFewRepositories)
    ensures taskCount >= 1 && |families| >= minimumRepositories && |catalog| < taskCount ==>
              r == Refused(CatalogTooSmall)
    ensures taskCount >= 1 && |families| >= minimumRepositories && |catalog| >= taskCount && required > taskCount ==>
              r == Refused(CouldSelectOnly(required))
    ensures taskCount >= 1 && |families| >= minimumRepositories && |catalog| >= taskCount && required <= taskCount ==>
              && r.Chosen? && |r.tasks| == taskCount
              && multiset(r.tasks) <= multiset(catalog) && Sorted(r.tasks, ById())
              && (forall p :: 0 <= p < required ==> Picks(r.tasks, families[p]) >= 1)
              && FairShares(catalog, families, required, r.tasks)
  {
    hide Conserved, OwnPools, Slice, Sort, Picks, FairShares, FirstPicks, Without, FamiliesOf;
    families, required := [], 0;
    if taskCount < 1 { return Refused(CountNotPositive), families, required; }
    var names, grouped := GroupByFamily(catalog);
    var order := shuffleFamilies(Sort(names, ByName()));
    families := order;
    var first := Slice(order, minimumRepositories);
    required := |first|;
    OrderedFamilies(catalog, names, grouped, order);
    if |order| < minimumRepositories { return Refused(TooFewRepositories), families, required; }
    if |catalog| < taskCount { return Refused(CatalogTooSmall), families, required; }
    var pools := ShufflePools(catalog, order, grouped, shufflePool);
    var selected, left := TakeRequired(catalog, order, first, pools);
    var cycle := first + Without(order, first);
    CycleIsFamilies(order, minimumRepositories);
    if |selected| > taskCount { return Refused(CouldSelectOnly(|selected|)), families, required; }
    NonEmptyCatalog(catalog, order, pools);
    GoingStarts(catalog, cycle, required, selected, left);
    selected, left := RoundRobin(catalog, cycle, |first|, taskCount, selected, left);
    r := Chosen(Sort(selected, ById()));
    Report(catalog, cycle, required, selected, left);
  }

  lemma SameNames(a: seq<string>, b: seq<string>)
    requires multiset(a) == multiset(b) && Distinct(a)
    ensures Names(a) == Names(b) && Distinct(b)
  {
    DistinctInAnyOrder(a, b);
  }

  lemma GroupedFamilies(catalog: seq<Task>, pools: Pools)
    requires OwnPools(pools) && Conserved(catalog, [], pools) && forall f :: f in pools ==> pools[f] != []
    ensures pools.Keys == FamiliesOf(catalog)
  {
    forall f | f in pools ensures f in FamiliesOf(catalog) {
      var t := pools[f][0];
      assert t in pools[f] && t in multiset(pools[f]) && t in multiset(catalog);
      assert t in catalog;
    }
    forall t | t in catalog ensures t.family in pools {
      assert t in multiset(catalog);
    }
  }

  lemma OrderedFamilies(catalog: seq<Task>, names: seq<string>, pools: Pools, order: seq<string>)
    requires Grouped(catalog, names, pools) && multiset(order) == multiset(Sort(names, ByName()))
    ensures Grouped(catalog, order, pools) && Names(order) == FamiliesOf(catalog)
  {
    hide OwnPools, Conserved, Names, Distinct, FamiliesOf;
    ByTextIsTotal((x: string) => x);
    SortSorts(names, ByName());
    SameNames(names, order);
    GroupedFamilies(catalog, pools);
  }

  lemma NonEmptyCatalog(catalog: seq<Task>, order: seq<string>, pools: Pools)
    requires Grouped(catalog, order, pools) && catalog != []
    ensures order != []
  {
    assert catalog[0] in multiset(catalog);
    assert catalog[0].family in Names(order);
  }

  function Only(tasks: seq<Task>, f: string): seq<Task> {
    if tasks == [] then []
    else (if tasks[0].family == f then [tasks[0]] else []) + Only(tasks[1..], f)
  }

  lemma {:induction false} OnlyCounts(tasks: seq<Task>, f: string)
    ensures |Only(tasks, f)| == Picks(tasks, f)
    ensures forall t :: multiset(Only(tasks, f))[t] == if t.family == f then multiset(tasks)[t] else 0
  {
    if tasks != [] {
      OnlyCounts(tasks[1..], f);
      assert tasks == [tasks[0]] + tasks[1..];
    }
  }

  /** What is left in a pool is what was not picked. */
  lemma LeftOver(catalog: seq<Task>, selected: seq<Task>, pools: Pools, f: string)
    requires OwnPools(pools) && Conserved(catalog, selected, pools)
    ensures Picks(catalog, f) == Picks(selected, f) + |PoolOf(pools, f)|
  {
    hide Picks, Only;
    var pool := PoolOf(pools, f);
    var all, picked := Only(catalog, f), Only(selected, f);
    OnlyCounts(catalog, f);
    OnlyCounts(selected, f);
    forall t: Task ensures multiset(all)[t] == multiset(picked)[t] + multiset(pool)[t] {
      assert t in multiset(pool) ==> t in pool;
    }
    SameSize(all, picked, pool);
  }

  lemma SameSize(all: seq<Task>, a: seq<Task>, b: seq<Task>)
    requires forall t :: multiset(all)[t] == multiset(a)[t] + multiset(b)[t]
    ensures |all| == |a| + |b|
  {
    assert multiset(all) == multiset(a) + multiset(b);
    assert |multiset(all)| == |all| && |multiset(a) + multiset(b)| == |multiset(a)| + |multiset(b)|;
  }

  lemma Report(catalog: seq<Task>, cycle: seq<string>, required: nat, selected: seq<Task>, pools: Pools)
    requires Settled(catalog, cycle, required, selected, pools)
    ensures var tasks := Sort(selected, ById());
            && |tasks| == |selected| && multiset(tasks) <= multiset(catalog) && Sorted(tasks, ById())
            && (forall p :: 0 <= p < required && p < |cycle| ==> Picks(tasks, cycle[p]) >= 1)
            && FairShares(catalog, cycle, required, tasks)
  {
    var tasks := Sort(selected, ById());
    ByTextIsTotal((t: Task) => t.id);
    SortSorts(selected, ById());
    assert |multiset(tasks)| == |tasks| && |multiset(selected)| == |selected|;
    forall f ensures Picks(tasks, f) == Picks(selected, f) {
      SumOfPermutation(tasks, selected, InFamily(f));
    }
    forall p | 0 <= p < |cycle| && Picks(tasks, cycle[p]) < Picks(catalog, cycle[p])
      ensures PoolOf(pools, cycle[p]) != []
    {
      LeftOver(catalog, selected, pools, cycle[p]);
    }
  }
}
