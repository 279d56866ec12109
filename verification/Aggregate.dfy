/** Binding results to plan cells and aggregating them, `build_dogfood_result` and
    `aggregate_dogfood_results` of src/claim_plane/dogfood.py. */
module Aggregate {
  import opened Ordering
  import opened Sums
  import opened Dogfood

  /** What the evaluator measured, as far as the gates read it. */
  datatype Evaluation = Evaluation(
    outcome: string, complete: bool, success: bool, accepted: bool, falseBlocks: nat, missedMutations: nat,
    evidence: string)

  datatype Result = Result(
    executionId: string, planDigest: string, suiteDigest: string, taskId: string, repositoryId: string,
    seed: int, arm: Arm, evaluation: Evaluation)

  /** The part of a result that must agree with the plan. */
  datatype Binding = Binding(executionId: string, planDigest: string, suiteDigest: string, taskId: string,
                             repositoryId: string, seed: int, arm: Arm)

  function BindingOf(r: Result): Binding {
    Binding(r.executionId, r.planDigest, r.suiteDigest, r.taskId, r.repositoryId, r.seed, r.arm)
  }

  function CellOf(plan: Plan, e: Entry): Binding {
    Binding(e.executionId, plan.digest, plan.suiteDigest, e.taskId, e.repositoryId, e.seed, e.arm)
  }

  function Bindings(results: seq<Result>): seq<Binding> {
    seq(|results|, i requires 0 <= i < |results| => BindingOf(results[i]))
  }

  function PlanCells(plan: Plan): seq<Binding> {
    seq(|plan.entries|, i requires 0 <= i < |plan.entries| => CellOf(plan, plan.entries[i]))
  }

  datatype Bound = Bound(result: Result) | NotInPlan

  /** `build_dogfood_result`: the first entry with this id, if any, fills in the bound fields. */
  function BuildResult(plan: Plan, executionId: string, evaluation: Evaluation): Bound {
    var k := FindEntry(plan.entries, executionId);
    if k == |plan.entries| then NotInPlan
    else
      var e := plan.entries[k];
      Bound(Result(e.executionId, plan.digest, plan.suiteDigest, e.taskId, e.repositoryId, e.seed, e.arm, evaluation))
  }

  function FindEntry(entries: seq<Entry>, id: string): (k: nat)
    ensures k <= |entries| && (k < |entries| ==> entries[k].executionId == id)
    ensures forall i :: 0 <= i < k ==> entries[i].executionId != id
  {
    if entries == [] || entries[0].executionId == id then 0 else 1 + FindEntry(entries[1..], id)
  }

  // ----- aggregation -----

  datatype Coverage = Coverage(
    expected: nat, observed: nat, matched: seq<Result>, missing: set<string>, unexpected: seq<string>,
    duplicates: seq<string>, mismatched: seq<string>, complete: bool)

  /** `{entry.execution_id: entry for entry in plan.entries}` */
  function Expected(entries: seq<Entry>): map<string, Entry> {
    if entries == [] then map[] else map[entries[0].executionId := entries[0]] + Expected(entries[1..])
  }

  ghost function Ids(results: seq<Result>): set<string> { set r | r in results :: r.executionId }

  /** Whether the bound fields of a result agree with the plan entry of the same id. */
  predicate Matches(plan: Plan, expected: map<string, Entry>, r: Result) {
    r.executionId in expected && BindingOf(r) == CellOf(plan, expected[r.executionId])
  }

  ghost predicate DistinctIds(results: seq<Result>) {
    forall i, j :: 0 <= i < j < |results| ==> results[i].executionId != results[j].executionId
  }

  function KindOf(plan: Plan, expected: map<string, Entry>, kind: Kind): Result -> int {
    (r: Result) => if Classify(plan, expected, r) == kind then 1 else 0
  }

  datatype Kind = Unexpected | Mismatched | Matched

  function Classify(plan: Plan, expected: map<string, Entry>, r: Result): Kind {
    if r.executionId !in expected then Unexpected else if Matches(plan, expected, r) then Matched else Mismatched
  }

  /** The loop after the given results: first occurrences, and the rest by kind of fault. */
  ghost predicate Sifted(plan: Plan, expected: map<string, Entry>, results: seq<Result>, observed: seq<Result>,
                         unexpected: seq<string>, duplicates: seq<string>, mismatched: seq<string>)
  {
    && DistinctIds(observed) && Ids(observed) == Ids(results) && (forall r :: r in observed ==> r in results)
    && |results| == |observed| + |duplicates|
    && (duplicates == [] <==> DistinctIds(results)) && (duplicates == [] ==> observed == results)
    && |unexpected| == SumOf(observed, KindOf(plan, expected, Unexpected))
    && |mismatched| == SumOf(observed, KindOf(plan, expected, Mismatched))
    && (forall i :: 0 <= i < |mismatched| ==> mismatched[i] in Ids(observed))
    && forall r :: r in observed ==> (r.executionId in mismatched <==> Classify(plan, expected, r) == Mismatched)
  }

  lemma AddId(results: seq<Result>, r: Result)
    ensures Ids(results + [r]) == Ids(results) + {r.executionId}
  {
  }

  lemma SiftDuplicate(plan: Plan, expected: map<string, Entry>, results: seq<Result>, observed: seq<Result>,
                      unexpected: seq<string>, duplicates: seq<string>, mismatched: seq<string>, r: Result)
    requires Sifted(plan, expected, results, observed, unexpected, duplicates, mismatched)
    requires r.executionId in Ids(observed)
    ensures Sifted(plan, expected, results + [r], observed, unexpected, duplicates + [r.executionId], mismatched)
  {
    hide Classify, Ids;
    AddId(results, r);
    RepeatedId(results, r);
  }

  lemma SiftNew(plan: Plan, expected: map<string, Entry>, results: seq<Result>, observed: seq<Result>,
                unexpected: seq<string>, duplicates: seq<string>, mismatched: seq<string>, r: Result)
    requires Sifted(plan, expected, results, observed, unexpected, duplicates, mismatched)
    requires r.executionId !in Ids(observed)
    ensures var kind := Classify(plan, expected, r);
            Sifted(plan, expected, results + [r], observed + [r],
                   if kind == Unexpected then unexpected + [r.executionId] else unexpected, duplicates,
                   if kind == Mismatched then mismatched + [r.executionId] else mismatched)
  {
    hide Classify, Ids, DistinctIds;
    AddId(results, r);
    AddId(observed, r);
    SumOfConcat(observed, [r], KindOf(plan, expected, Unexpected));
    SumOfConcat(observed, [r], KindOf(plan, expected, Mismatched));
    HasIds(observed);
    NewIdIsDistinct(observed, r);
    NewIdIsDistinct(results, r);
  }

  lemma HasIds(observed: seq<Result>)
    ensures forall o :: o in observed ==> o.executionId in Ids(observed)
  {
  }

  lemma RepeatedId(results: seq<Result>, r: Result)
    requires r.executionId in Ids(results)
    ensures !DistinctIds(results + [r])
  {
    var k :| 0 <= k < |results| && results[k].executionId == r.executionId;
    assert (results + [r])[k].executionId == (results + [r])[|results|].executionId;
  }

  lemma NewIdIsDistinct(results: seq<Result>, r: Result)
    requires r.executionId !in Ids(results)
    ensures DistinctIds(results + [r]) <==> DistinctIds(results)
  {
    forall i | 0 <= i < |results| ensures results[i].executionId != r.executionId {
      assert results[i] in results && results[i].executionId in Ids(results);
    }
    assert (results + [r])[..|results|] == results;
    forall i, j | 0 <= i < j < |results| && results[i].executionId == results[j].executionId
      ensures !DistinctIds(results + [r])
    {
      assert (results + [r])[i].executionId == (results + [r])[j].executionId;
    }
  }

  // ----- which ids are reported -----

  function AllIds(results: seq<Result>): seq<string> {
    seq(|results|, i requires 0 <= i < |results| => results[i].executionId)
  }

  /** The first result with its id. */
  ghost predicate IsFirst(results: seq<Result>, r: Result) {
    exists k :: 0 <= k < |results| && results[k] == r
      && forall j :: 0 <= j < k ==> results[j].executionId != r.executionId
  }

  ghost predicate FaultyAt(plan: Plan, expected: map<string, Entry>, observed: seq<Result>, id: string) {
    exists r :: r in observed && r.executionId == id && Classify(plan, expected, r) == Mismatched
  }

  /** Observed are the first results of each id; every other occurrence is reported as a duplicate, every
      id outside the plan once as unexpected, and every id whose first result disagrees once as mismatched. */
  ghost predicate Named(plan: Plan, expected: map<string, Entry>, results: seq<Result>, observed: seq<Result>,
                        unexpected: seq<string>, duplicates: seq<string>, mismatched: seq<string>)
  {
    && Ids(observed) == Ids(results) && (forall r :: r in observed ==> IsFirst(results, r))
    && multiset(AllIds(results)) == multiset(AllIds(observed)) + multiset(duplicates)
    && (forall id :: multiset(unexpected)[id] == if id in Ids(observed) && id !in expected then 1 else 0)
    && forall id :: multiset(mismatched)[id] == if FaultyAt(plan, expected, observed, id) then 1 else 0
  }

  lemma AllIdsOneMore(results: seq<Result>, r: Result)
    ensures multiset(AllIds(results + [r])) == multiset(AllIds(results)) + multiset{r.executionId}
  {
    assert AllIds(results + [r]) == AllIds(results) + [r.executionId];
  }

  lemma StillFirst(results: seq<Result>, r: Result, more: Result)
    requires IsFirst(results, r)
    ensures IsFirst(results + [more], r)
  {
    var k :| 0 <= k < |results| && results[k] == r
      && forall j :: 0 <= j < k ==> results[j].executionId != r.executionId;
    assert (results + [more])[k] == r;
  }

  lemma NewIsFirst(results: seq<Result>, r: Result)
    requires r.executionId !in Ids(results)
    ensures IsFirst(results + [r], r)
  {
    assert (results + [r])[|results|] == r;
    forall j | 0 <= j < |results| ensures results[j].executionId != r.executionId { assert results[j] in results; }
  }

  lemma NamedDuplicate(plan: Plan, expected: map<string, Entry>, results: seq<Result>, observed: seq<Result>,
                       unexpected: seq<string>, duplicates: seq<string>, mismatched: seq<string>, r: Result)
    requires Named(plan, expected, results, observed, unexpected, duplicates, mismatched)
    requires r.executionId in Ids(observed)
    ensures Named(plan, expected, results + [r], observed, unexpected, duplicates + [r.executionId], mismatched)
  {
    hide IsFirst, FaultyAt, AllIds, Ids;
    AllIdsOneMore(results, r);
    AddId(results, r);
    forall o | o in observed ensures IsFirst(results + [r], o) { StillFirst(results, o, r); }
  }

  lemma FaultyWithMore(plan: Plan, expected: map<string, Entry>, observed: seq<Result>, r: Result, id: string)
    requires r.executionId !in Ids(observed)
    ensures FaultyAt(plan, expected, observed + [r], id) <==>
              if id == r.executionId then Classify(plan, expected, r) == Mismatched
              else FaultyAt(plan, expected, observed, id)
    ensures !FaultyAt(plan, expected, observed, r.executionId)
  {
    hide Classify;
    assert r in observed + [r];
    assert forall o :: o in observed ==> o in observed + [r] && o.executionId in Ids(observed);
    assert forall o :: o in observed + [r] <==> o in observed || o == r;
  }

  lemma NamedNew(plan: Plan, expected: map<string, Entry>, results: seq<Result>, observed: seq<Result>,
                 unexpected: seq<string>, duplicates: seq<string>, mismatched: seq<string>, r: Result)
    requires Named(plan, expected, results, observed, unexpected, duplicates, mismatched)
    requires r.executionId !in Ids(observed)
    ensures var kind := Classify(plan, expected, r);
            Named(plan, expected, results + [r], observed + [r],
                  if kind == Unexpected then unexpected + [r.executionId] else unexpected, duplicates,
                  if kind == Mismatched then mismatched + [r.executionId] else mismatched)
  {
    hide IsFirst, FaultyAt, AllIds, Ids;
    AllIdsOneMore(results, r);
    AllIdsOneMore(observed, r);
    AddId(results, r);
    AddId(observed, r);
    forall o | o in observed + [r] ensures IsFirst(results + [r], o) {
      if o in observed { StillFirst(results, o, r); } else { NewIsFirst(results, r); }
    }
    forall id ensures FaultyAt(plan, expected, observed + [r], id) <==>
        if id == r.executionId then Classify(plan, expected, r) == Mismatched
        else FaultyAt(plan, expected, observed, id)
    {
      FaultyWithMore(plan, expected, observed, r, id);
    }
    FaultyWithMore(plan, expected, observed, r, r.executionId);
  }

  /** The loop over the results. */
  method Sift(plan: Plan, expected: map<string, Entry>, results: seq<Result>)
    returns (observed: seq<Result>, unexpected: seq<string>, duplicates: seq<string>, mismatched: seq<string>)
    ensures Sifted(plan, expected, results, observed, unexpected, duplicates, mismatched)
    ensures Named(plan, expected, results, observed, unexpected, duplicates, mismatched)
  {
    observed, unexpected, duplicates, mismatched := [], [], [], [];
    NothingSifted(plan, expected);
    hide Sifted, KindOf, Named;
    for k := 0 to |results|
      invariant Sifted(plan, expected, results[..k], observed, unexpected, duplicates, mismatched)
      invariant Named(plan, expected, results[..k], observed, unexpected, duplicates, mismatched)
    {
      var r := results[k];
      assert results[..k + 1] == results[..k] + [r];
      if exists o :: o in observed && o.executionId == r.executionId {
        SiftDuplicate(plan, expected, results[..k], observed, unexpected, duplicates, mismatched, r);
        NamedDuplicate(plan, expected, results[..k], observed, unexpected, duplicates, mismatched, r);
        duplicates := duplicates + [r.executionId];
      } else {
        SiftNew(plan, expected, results[..k], observed, unexpected, duplicates, mismatched, r);
        NamedNew(plan, expected, results[..k], observed, unexpected, duplicates, mismatched, r);
        observed := observed + [r];
        if r.executionId !in expected {
          unexpected := unexpected + [r.executionId];
        } else if !Matches(plan, expected, r) {
          mismatched := mismatched + [r.executionId];
        }
      }
    }
    assert results[..|results|] == results;
  }

  lemma NothingSifted(plan: Plan, expected: map<string, Entry>)
    ensures Sifted(plan, expected, [], [], [], [], []) && Named(plan, expected, [], [], [], [], [])
  {
  }

  // ----- what coverage means -----

  function MatchedOf(plan: Plan, expected: map<string, Entry>, observed: seq<Result>): seq<Result> {
    if observed == [] then []
    else (if Matches(plan, expected, observed[0]) then [observed[0]] else []) + MatchedOf(plan, expected, observed[1..])
  }

  lemma {:induction false} MatchedOfCounts(plan: Plan, expected: map<string, Entry>, observed: seq<Result>)
    requires DistinctIds(observed)
    ensures |MatchedOf(plan, expected, observed)| == SumOf(observed, KindOf(plan, expected, Matched))
    ensures forall r :: r in MatchedOf(plan, expected, observed) <==> r in observed && Matches(plan, expected, r)
    ensures DistinctIds(MatchedOf(plan, expected, observed))
  {
    if observed != [] {
      var rest := observed[1..];
      MatchedOfCounts(plan, expected, rest);
      assert observed == [observed[0]] + rest;
      var more := MatchedOf(plan, expected, rest);
      forall i | 0 <= i < |more| ensures more[i].executionId != observed[0].executionId {
        assert more[i] in more;
        var j :| 0 <= j < |rest| && rest[j] == more[i];
      }
    }
  }

  lemma {:induction false} KindsAddUp(plan: Plan, expected: map<string, Entry>, observed: seq<Result>)
    ensures |observed| == SumOf(observed, KindOf(plan, expected, Unexpected))
                          + SumOf(observed, KindOf(plan, expected, Mismatched))
                          + SumOf(observed, KindOf(plan, expected, Matched))
  {
    if observed != [] { KindsAddUp(plan, expected, observed[1..]); }
  }

  lemma FirstId(observed: seq<Result>)
    requires DistinctIds(observed) && observed != []
    ensures Ids(observed) == Ids(observed[1..]) + {observed[0].executionId}
    ensures observed[0].executionId !in Ids(observed[1..]) && DistinctIds(observed[1..])
  {
    assert observed == [observed[0]] + observed[1..];
  }

  lemma AddKnown(known: set<string>, ids: set<string>, id: string)
    requires id !in ids
    ensures |known * (ids + {id})| == |known * ids| + (if id in known then 1 else 0)
  {
    assert known * (ids + {id}) == if id in known then known * ids + {id} else known * ids;
  }

  /** The observed results with an id in the plan, against the ids themselves. */
  lemma {:induction false} KnownIds(plan: Plan, expected: map<string, Entry>, observed: seq<Result>)
    requires DistinctIds(observed)
    ensures |expected.Keys * Ids(observed)|
         == SumOf(observed, KindOf(plan, expected, Mismatched)) + SumOf(observed, KindOf(plan, expected, Matched))
  {
    hide Ids, DistinctIds;
    if observed == [] {
      NoIds();
    } else {
      FirstId(observed);
      KnownIds(plan, expected, observed[1..]);
      AddKnown(expected.Keys, Ids(observed[1..]), observed[0].executionId);
    }
  }

  lemma NoIds()
    ensures Ids([]) == {}
  {
  }

  /** Every result is matched, mismatched, unexpected or a duplicate, and every planned id is
      matched, mismatched or missing. */
  lemma Conservation(plan: Plan, expected: map<string, Entry>, results: seq<Result>, observed: seq<Result>,
                     unexpected: seq<string>, duplicates: seq<string>, mismatched: seq<string>)
    requires Sifted(plan, expected, results, observed, unexpected, duplicates, mismatched)
    ensures var matched := MatchedOf(plan, expected, observed);
            && |results| == |matched| + |mismatched| + |unexpected| + |duplicates|
            && |expected| == |matched| + |mismatched| + |expected.Keys - Ids(observed)|
  {
    hide KindOf, Classify, DistinctIds;
    MatchedOfCounts(plan, expected, observed);
    KindsAddUp(plan, expected, observed);
    KnownIds(plan, expected, observed);
    assert expected.Keys == expected.Keys * Ids(observed) + (expected.Keys - Ids(observed));
    assert |expected| == |expected.Keys|;
  }

  ghost predicate UniqueIds(entries: seq<Entry>) {
    forall i, j :: 0 <= i < j < |entries| ==> entries[i].executionId != entries[j].executionId
  }

  lemma {:induction false} ExpectedIds(entries: seq<Entry>, id: string)
    ensures id in Expected(entries) <==> FindEntry(entries, id) < |entries|
  {
    if entries != [] { ExpectedIds(entries[1..], id); }
  }

  /** With unique ids the lookup table has one row for every entry. */
  lemma {:induction false} ExpectedEntries(entries: seq<Entry>)
    requires UniqueIds(entries)
    ensures |Expected(entries)| == |entries|
    ensures forall i :: 0 <= i < |entries| ==>
              entries[i].executionId in Expected(entries) && Expected(entries)[entries[i].executionId] == entries[i]
  {
    if entries != [] {
      var first, rest := entries[0], entries[1..];
      ExpectedEntries(rest);
      ExpectedIds(rest, first.executionId);
      assert Expected(entries).Keys == Expected(rest).Keys + {first.executionId};
      assert |Expected(entries).Keys| == |Expected(entries)| && |Expected(rest).Keys| == |Expected(rest)|;
    }
  }

  // ----- complete means a permutation of the plan -----

  lemma PlanCellsAreDistinct(plan: Plan)
    requires UniqueIds(plan.entries)
    ensures Distinct(PlanCells(plan))
  {
    var cells := PlanCells(plan);
    forall i, j | 0 <= i < j < |cells| ensures cells[i] != cells[j] {
      assert cells[i].executionId == plan.entries[i].executionId && cells[j].executionId == plan.entries[j].executionId;
    }
  }

  lemma {:induction false} AllMatched(plan: Plan, expected: map<string, Entry>, observed: seq<Result>)
    requires SumOf(observed, KindOf(plan, expected, Unexpected)) == 0
    requires SumOf(observed, KindOf(plan, expected, Mismatched)) == 0
    ensures MatchedOf(plan, expected, observed) == observed
    ensures forall r :: r in observed ==> Matches(plan, expected, r)
  {
    if observed != [] {
      KindsAreNatural(plan, expected, observed[1..]);
      AllMatched(plan, expected, observed[1..]);
      assert observed == [observed[0]] + observed[1..];
    }
  }

  lemma {:induction false} KindsAreNatural(plan: Plan, expected: map<string, Entry>, observed: seq<Result>)
    ensures forall kind :: SumOf(observed, KindOf(plan, expected, kind)) >= 0
  {
    if observed != [] { KindsAreNatural(plan, expected, observed[1..]); }
  }

  lemma {:induction false} NoneAtFault(plan: Plan, expected: map<string, Entry>, observed: seq<Result>)
    requires forall i :: 0 <= i < |observed| ==> Matches(plan, expected, observed[i])
    ensures SumOf(observed, KindOf(plan, expected, Unexpected)) == 0
    ensures SumOf(observed, KindOf(plan, expected, Mismatched)) == 0
  {
    if observed != [] { NoneAtFault(plan, expected, observed[1..]); }
  }

  lemma MatchIsCell(plan: Plan, r: Result)
    requires UniqueIds(plan.entries) && Matches(plan, Expected(plan.entries), r)
    ensures BindingOf(r) in PlanCells(plan)
  {
    ExpectedEntries(plan.entries);
    ExpectedIds(plan.entries, r.executionId);
    var k := FindEntry(plan.entries, r.executionId);
    assert PlanCells(plan)[k] == CellOf(plan, plan.entries[k]);
  }

  /** Distinct results, each agreeing with its entry and none missing, are the plan's cells. */
  lemma CoveredIsPermutation(plan: Plan, results: seq<Result>)
    requires UniqueIds(plan.entries) && DistinctIds(results)
    requires forall r :: r in results ==> Matches(plan, Expected(plan.entries), r)
    requires Expected(plan.entries).Keys <= Ids(results)
    ensures multiset(Bindings(results)) == multiset(PlanCells(plan))
  {
    var cells, bindings, expected := PlanCells(plan), Bindings(results), Expected(plan.entries);
    PlanCellsAreDistinct(plan);
    ExpectedEntries(plan.entries);
    forall i, j | 0 <= i < j < |bindings| ensures bindings[i] != bindings[j] {
      assert bindings[i].executionId == results[i].executionId && bindings[j].executionId == results[j].executionId;
    }
    forall i | 0 <= i < |bindings| ensures bindings[i] in cells { MatchIsCell(plan, results[i]); }
    forall k | 0 <= k < |cells| ensures cells[k] in bindings {
      var id := plan.entries[k].executionId;
      assert id in expected && id in Ids(results);
      var i :| 0 <= i < |results| && results[i].executionId == id;
      assert results[i] in results && bindings[i] == BindingOf(results[i]);
    }
    SameElements(bindings, cells);
  }

  /** In a permutation of the plan every result is the one for its id. */
  lemma PermutationBinds(plan: Plan, results: seq<Result>, i: nat)
    requires UniqueIds(plan.entries) && multiset(Bindings(results)) == multiset(PlanCells(plan)) && i < |results|
    ensures Matches(plan, Expected(plan.entries), results[i])
  {
    var cells, bindings := PlanCells(plan), Bindings(results);
    assert bindings[i] in multiset(bindings) && bindings[i] in cells;
    var k :| 0 <= k < |cells| && cells[k] == bindings[i];
    ExpectedEntries(plan.entries);
    assert plan.entries[k].executionId == results[i].executionId;
  }

  lemma PermutationIsDistinct(plan: Plan, results: seq<Result>)
    requires UniqueIds(plan.entries) && multiset(Bindings(results)) == multiset(PlanCells(plan))
    ensures DistinctIds(results)
  {
    PlanCellsAreDistinct(plan);
    DistinctInAnyOrder(Bindings(results), PlanCells(plan));
    forall i, j | 0 <= i < j < |results| ensures results[i].executionId != results[j].executionId {
      PermutationBinds(plan, results, i);
      PermutationBinds(plan, results, j);
      assert Bindings(results)[i] != Bindings(results)[j];
    }
  }

  lemma PermutationMissesNone(plan: Plan, results: seq<Result>)
    requires UniqueIds(plan.entries) && multiset(Bindings(results)) == multiset(PlanCells(plan))
    ensures Expected(plan.entries).Keys <= Ids(results)
  {
    var cells, bindings := PlanCells(plan), Bindings(results);
    forall id | id in Expected(plan.entries) ensures id in Ids(results) {
      ExpectedIds(plan.entries, id);
      var k := FindEntry(plan.entries, id);
      assert cells[k] in multiset(cells) && cells[k] in bindings;
      var i :| 0 <= i < |bindings| && bindings[i] == cells[k];
      assert results[i] in results && results[i].executionId == id;
    }
  }

  lemma CompleteIffPermutation(plan: Plan, results: seq<Result>, observed: seq<Result>,
                               unexpected: seq<string>, duplicates: seq<string>, mismatched: seq<string>)
    requires Sifted(plan, Expected(plan.entries), results, observed, unexpected, duplicates, mismatched)
    ensures var expected := Expected(plan.entries);
            var complete := expected.Keys - Ids(observed) == {} && unexpected == [] && duplicates == []
                && mismatched == [];
            && (UniqueIds(plan.entries) ==> (complete <==> multiset(Bindings(results)) == multiset(PlanCells(plan))))
            && (complete ==> MatchedOf(plan, expected, observed) == results)
  {
    hide UniqueIds, DistinctIds, Ids, Bindings, PlanCells, Classify, KindOf, Expected, Matches, SumOf;
    var expected := Expected(plan.entries);
    if expected.Keys - Ids(observed) == {} && unexpected == [] && duplicates == [] && mismatched == [] {
      AllMatched(plan, expected, observed);
      forall id | id in expected ensures id in Ids(results) { assert id !in expected.Keys - Ids(observed); }
      if UniqueIds(plan.entries) { CoveredIsPermutation(plan, results); }
    }
    if UniqueIds(plan.entries) && multiset(Bindings(results)) == multiset(PlanCells(plan)) {
      PermutationIsDistinct(plan, results);
      PermutationMissesNone(plan, results);
      forall i | 0 <= i < |results| ensures Matches(plan, expected, results[i]) { PermutationBinds(plan, results, i); }
      NoneAtFault(plan, expected, results);
    }
  }

  function Occurrences(results: seq<Result>, id: string): nat { multiset(AllIds(results))[id] }

  /** The ids a coverage reports: missing are the planned ids without a result, unexpected the ids of results
      outside the plan, duplicates each occurrence but the first, and mismatched the planned ids whose
      first result disagrees with its entry; no id is unexpected or mismatched twice. */
  ghost predicate Reports(plan: Plan, results: seq<Result>, c: Coverage) {
    var expected := Expected(plan.entries);
    && c.missing == expected.Keys - Ids(results)
    && (forall id :: multiset(c.unexpected)[id] == if id in Ids(results) && id !in expected then 1 else 0)
    && (forall id :: multiset(c.duplicates)[id] == if id in Ids(results) then Occurrences(results, id) - 1 else 0)
    && forall id :: multiset(c.mismatched)[id] ==
         if exists r :: IsFirst(results, r) && r.executionId == id && Classify(plan, expected, r) == Mismatched
           then 1 else 0
  }

  lemma NamedReports(plan: Plan, results: seq<Result>, observed: seq<Result>, c: Coverage)
    requires Named(plan, Expected(plan.entries), results, observed, c.unexpected, c.duplicates, c.mismatched)
    requires DistinctIds(observed)
    requires c.missing == Expected(plan.entries).Keys - Ids(observed)
    ensures Reports(plan, results, c)
  {
    hide IsFirst, AllIds, Expected, Classify, DistinctIds;
    var expected := Expected(plan.entries);
    forall id ensures multiset(c.duplicates)[id] == if id in Ids(results) then Occurrences(results, id) - 1 else 0 {
      OnceObserved(observed, id);
      NotOccurring(results, id);
      assert Occurrences(results, id) == multiset(AllIds(observed))[id] + multiset(c.duplicates)[id];
    }
    forall id ensures FaultyAt(plan, expected, observed, id) <==>
        exists r :: IsFirst(results, r) && r.executionId == id && Classify(plan, expected, r) == Mismatched
    {
      FirstIsObserved(plan, expected, results, observed, c.unexpected, c.duplicates, c.mismatched, id);
    }
  }

  lemma NotOccurring(results: seq<Result>, id: string)
    ensures id !in Ids(results) ==> multiset(AllIds(results))[id] == 0
  {
    if id !in Ids(results) {
      forall k | 0 <= k < |results| ensures AllIds(results)[k] != id { assert results[k] in results; }
      assert id !in multiset(AllIds(results));
    }
  }

  lemma OnceObserved(observed: seq<Result>, id: string)
    requires DistinctIds(observed)
    ensures multiset(AllIds(observed))[id] == if id in Ids(observed) then 1 else 0
  {
    DistinctIffOnce(AllIds(observed));
    if id in Ids(observed) {
      var k :| 0 <= k < |observed| && observed[k].executionId == id;
      assert AllIds(observed)[k] == id;
    } else {
      NotOccurring(observed, id);
    }
  }

  lemma FirstIsObserved(plan: Plan, expected: map<string, Entry>, results: seq<Result>, observed: seq<Result>,
                        unexpected: seq<string>, duplicates: seq<string>, mismatched: seq<string>, id: string)
    requires Named(plan, expected, results, observed, unexpected, duplicates, mismatched)
    ensures FaultyAt(plan, expected, observed, id) <==>
              exists r :: IsFirst(results, r) && r.executionId == id && Classify(plan, expected, r) == Mismatched
  {
    hide AllIds, Classify;
    forall r | IsFirst(results, r) && r.executionId == id ensures r in observed {
      var k :| 0 <= k < |results| && results[k] == r
        && forall j :: 0 <= j < k ==> results[j].executionId != r.executionId;
      assert results[k] in results && id in Ids(results);
      var o :| o in observed && o.executionId == id;
      assert IsFirst(results, o);
    }
  }

  /** `aggregate_dogfood_results` as far as coverage goes. */
  method AggregateResults(plan: Plan, results: seq<Result>) returns (c: Coverage)
    ensures Reports(plan, results, c)
    ensures c.expected == |Expected(plan.entries)|
    ensures |results| == |c.matched| + |c.mismatched| + |c.unexpected| + |c.duplicates|
    ensures c.expected == |c.matched| + |c.mismatched| + |c.missing|
    ensures forall r :: r in c.matched ==> r in results && Matches(plan, Expected(plan.entries), r)
    ensures DistinctIds(c.matched)
    ensures c.complete <==> c.missing == {} && c.unexpected == [] && c.duplicates == [] && c.mismatched == []
    ensures UniqueIds(plan.entries) ==> (c.complete <==> multiset(Bindings(results)) == multiset(PlanCells(plan)))
    ensures c.complete ==> c.matched == results
  {
    hide *;
    var expected := Expected(plan.entries);
    var observed, unexpected, duplicates, mismatched := Sift(plan, expected, results);
    var missing := set id | id in expected && !(exists o :: o in observed && o.executionId == id);
    MissingIds(expected, observed);
    var matched := MatchedOf(plan, expected, observed);
    ObservedFacts(plan, results, observed, unexpected, duplicates, mismatched);
    Conservation(plan, expected, results, observed, unexpected, duplicates, mismatched);
    CompleteIffPermutation(plan, results, observed, unexpected, duplicates, mismatched);
    c := Coverage(|expected|, |observed|, matched, missing, unexpected, duplicates, mismatched,
                  missing == {} && unexpected == [] && duplicates == [] && mismatched == []);
    SiftedIsDistinct(plan, expected, results, observed, unexpected, duplicates, mismatched);
    NamedReports(plan, results, observed, c);
  }

  lemma SiftedIsDistinct(plan: Plan, expected: map<string, Entry>, results: seq<Result>, observed: seq<Result>,
                         unexpected: seq<string>, duplicates: seq<string>, mismatched: seq<string>)
    requires Sifted(plan, expected, results, observed, unexpected, duplicates, mismatched)
    ensures DistinctIds(observed)
  {
  }

  lemma MissingIds(expected: map<string, Entry>, observed: seq<Result>)
    ensures (set id | id in expected && !(exists o :: o in observed && o.executionId == id))
        == expected.Keys - Ids(observed)
  {
  }

  lemma ObservedFacts(plan: Plan, results: seq<Result>, observed: seq<Result>,
                      unexpected: seq<string>, duplicates: seq<string>, mismatched: seq<string>)
    requires Sifted(plan, Expected(plan.entries), results, observed, unexpected, duplicates, mismatched)
    ensures var matched := MatchedOf(plan, Expected(plan.entries), observed);
            DistinctIds(matched)
            && forall r :: r in matched ==> r in results && Matches(plan, Expected(plan.entries), r)
  {
    hide KindOf, Ids, Matches;
    MatchedOfCounts(plan, Expected(plan.entries), observed);
  }

  // ----- recording through the plan -----

  /** Recording each cell of a plan once, in any order, always aggregates as complete. */
  lemma RecordedCellsArePermutation(plan: Plan, ids: seq<string>, evaluations: seq<Evaluation>, results: seq<Result>)
    requires UniqueIds(plan.entries) && |ids| == |evaluations| == |results|
    requires multiset(ids)
        == multiset(seq(|plan.entries|, i requires 0 <= i < |plan.entries| => plan.entries[i].executionId))
    requires forall i :: 0 <= i < |ids| ==> BuildResult(plan, ids[i], evaluations[i]) == Bound(results[i])
    ensures multiset(Bindings(results)) == multiset(PlanCells(plan))
  {
    hide Expected, Matches, Bindings, PlanCells, BuildResult, Ids, UniqueIds, DistinctIds;
    var planned := seq(|plan.entries|, i requires 0 <= i < |plan.entries| => plan.entries[i].executionId);
    DistinctInAnyOrder(planned, ids);
    forall i | 0 <= i < |results|
      ensures results[i].executionId == ids[i] && Matches(plan, Expected(plan.entries), results[i])
    {
      RecordedMatches(plan, ids[i], evaluations[i], results[i]);
    }
    forall id | id in Expected(plan.entries) ensures id in Ids(results) {
      ExpectedIds(plan.entries, id);
      var k := FindEntry(plan.entries, id);
      assert planned[k] in ids;
      var i :| 0 <= i < |ids| && ids[i] == id;
      RecordedId(results, i);
    }
    DistinctRecords(plan, planned, ids, results);
    CoveredIsPermutation(plan, results);
  }

  lemma RecordedMatches(plan: Plan, id: string, evaluation: Evaluation, r: Result)
    requires UniqueIds(plan.entries) && BuildResult(plan, id, evaluation) == Bound(r)
    ensures r.executionId == id && Matches(plan, Expected(plan.entries), r)
  {
    ExpectedEntries(plan.entries);
    var k := FindEntry(plan.entries, id);
    assert plan.entries[k].executionId in Expected(plan.entries);
  }

  lemma RecordedId(results: seq<Result>, i: nat)
    requires i < |results|
    ensures results[i].executionId in Ids(results)
  {
    assert results[i] in results;
  }

  lemma DistinctRecords(plan: Plan, planned: seq<string>, ids: seq<string>, results: seq<Result>)
    requires UniqueIds(plan.entries) && multiset(ids) == multiset(planned) && |planned| == |plan.entries|
    requires forall i :: 0 <= i < |planned| ==> planned[i] == plan.entries[i].executionId
    requires |ids| == |results| && forall i :: 0 <= i < |results| ==> results[i].executionId == ids[i]
    ensures DistinctIds(results)
  {
    assert Distinct(planned);
    DistinctInAnyOrder(planned, ids);
  }

  /** An id outside the plan cannot be recorded, an id inside always can. */
  lemma RecordableIds(plan: Plan, id: string, evaluation: Evaluation)
    ensures BuildResult(plan, id, evaluation).Bound? <==> id in Expected(plan.entries)
  {
    ExpectedIds(plan.entries, id);
  }
}
