/** The bounded pool of experiments/cooperbench/physical_parallel.py as a state machine:
    at most `workers` commands hold a worker thread, and each thread stamps the clock after
    it takes a command and before it gives the thread back. */
module Pool {
  import opened Sums
  import opened Ordering
  import opened Sweep

  datatype Job =
    | Waiting
    | Taken                              // a worker holds it, no stamp yet
    | Running(started: int)
    | Stamped(started: int, finished: int)
    | Released(started: int, finished: int)

  /** `launched` logs every start of a process, `collected` the futures as they complete. */
  datatype State = State(now: int, jobs: seq<Job>, launched: seq<nat>, collected: seq<nat>)

  function Occupies(): Job -> int {
    (j: Job) => if j.Taken? || j.Running? || j.Stamped? then 1 else 0
  }

  /** Whether the interval of a job, open-ended while it runs, contains instant t. */
  function ActiveJob(t: int): Job -> int {
    (j: Job) =>
      if j.Running? then (if j.started <= t then 1 else 0)
      else if j.Stamped? || j.Released? then (if j.started <= t < j.finished then 1 else 0)
      else 0
  }

  ghost predicate Init(s: State, commands: nat) {
    s.now > 0 && s.jobs == seq(commands, _ => Waiting) && s.launched == [] && s.collected == []
  }

  datatype Action =
    | Tick(to: int)
    | Take(job: nat)
    | Start(job: nat)
    | Finish(job: nat)
    | Release(job: nat)
    | Collect(job: nat)

  predicate Enabled(workers: int, s: State, a: Action) {
    match a
    case Tick(to) => to >= s.now
    case Take(c) => c < |s.jobs| && s.jobs[c].Waiting? && SumOf(s.jobs, Occupies()) < workers
    case Start(c) => c < |s.jobs| && s.jobs[c].Taken?
    case Finish(c) => c < |s.jobs| && s.jobs[c].Running?
    case Release(c) => c < |s.jobs| && s.jobs[c].Stamped?
    case Collect(c) => c < |s.jobs| && (s.jobs[c].Stamped? || s.jobs[c].Released?) && c !in s.collected
  }

  function Step(workers: int, s: State, a: Action): State
    requires Enabled(workers, s, a)
  {
    match a
    case Tick(to) => s.(now := to)
    case Take(c) => s.(jobs := s.jobs[c := Taken], launched := s.launched + [c])
    case Start(c) => s.(jobs := s.jobs[c := Running(s.now)])
    case Finish(c) => s.(jobs := s.jobs[c := Stamped(s.jobs[c].started, s.now)])
    case Release(c) => s.(jobs := s.jobs[c := Released(s.jobs[c].started, s.jobs[c].finished)])
    case Collect(c) => s.(collected := s.collected + [c])
  }

  /** A run: the state after each of the actions, in any interleaving. */
  ghost predicate IsRun(workers: int, commands: nat, states: seq<State>, actions: seq<Action>) {
    && |states| == |actions| + 1 && Init(states[0], commands)
    && forall i :: 0 <= i < |actions| ==>
         Enabled(workers, states[i], actions[i]) && states[i + 1] == Step(workers, states[i], actions[i])
  }

  // ----- the invariant -----

  ghost predicate WellStamped(s: State) {
    forall c :: 0 <= c < |s.jobs| ==>
      match s.jobs[c]
      case Running(b) => 0 < b <= s.now
      case Stamped(b, e) => 0 < b <= e <= s.now
      case Released(b, e) => 0 < b <= e <= s.now
      case _ => true
  }

  ghost predicate Logged(s: State) {
    && (forall c :: 0 <= c < |s.jobs| ==> multiset(s.launched)[c] == if s.jobs[c].Waiting? then 0 else 1)
    && (forall i :: 0 <= i < |s.launched| ==> s.launched[i] < |s.jobs|)
    && (forall i, j :: 0 <= i < j < |s.collected| ==> s.collected[i] != s.collected[j])
    && (forall i :: 0 <= i < |s.collected| ==>
          s.collected[i] < |s.jobs| && (s.jobs[s.collected[i]].Stamped? || s.jobs[s.collected[i]].Released?))
  }

  /** At every instant so far, at most `workers` jobs were active. */
  ghost predicate BoundedSoFar(workers: int, s: State) {
    forall t :: t < s.now ==> SumOf(s.jobs, ActiveJob(t)) <= workers
  }

  ghost predicate Inv(workers: int, s: State) {
    && s.now > 0 && WellStamped(s) && Logged(s)
    && SumOf(s.jobs, Occupies()) <= workers && BoundedSoFar(workers, s)
  }

  lemma SumOfUpdate<T>(s: seq<T>, k: nat, x: T, f: T -> int)
    requires k < |s|
    ensures SumOf(s[k := x], f) == SumOf(s, f) - f(s[k]) + f(x)
  {
    SumOfWithout(s, k, f);
    SumOfWithout(s[k := x], k, f);
    assert s[k := x][..k] + s[k := x][k + 1..] == s[..k] + s[k + 1..];
  }

  /** From now on only jobs that hold a worker are active. */
  lemma ActiveNow(s: State, t: int)
    requires WellStamped(s) && t >= s.now
    ensures SumOf(s.jobs, ActiveJob(t)) <= SumOf(s.jobs, Occupies())
  {
    SumOfMonotone(s.jobs, ActiveJob(t), Occupies());
  }

  lemma {:induction false} AllWaiting(jobs: seq<Job>, f: Job -> int)
    requires f(Waiting) == 0 && forall c :: 0 <= c < |jobs| ==> jobs[c] == Waiting
    ensures SumOf(jobs, f) == 0
  {
    if jobs != [] { AllWaiting(jobs[1..], f); }
  }

  lemma StepKeepsBound(workers: int, s: State, a: Action)
    requires Inv(workers, s) && Enabled(workers, s, a)
    ensures var s' := Step(workers, s, a);
            SumOf(s'.jobs, Occupies()) <= workers && BoundedSoFar(workers, s')
  {
    var s' := Step(workers, s, a);
    if a.Tick? {
      forall t | t < s'.now ensures SumOf(s'.jobs, ActiveJob(t)) <= workers {
        if t >= s.now { ActiveNow(s, t); }
      }
    } else if !a.Collect? {
      SumOfUpdate(s.jobs, a.job, s'.jobs[a.job], Occupies());
      forall t | t < s'.now ensures SumOf(s'.jobs, ActiveJob(t)) <= workers {
        SumOfUpdate(s.jobs, a.job, s'.jobs[a.job], ActiveJob(t));
      }
    }
  }

  lemma StepKeepsInv(workers: int, s: State, a: Action)
    requires Inv(workers, s) && Enabled(workers, s, a)
    ensures Inv(workers, Step(workers, s, a))
  {
    hide Logged, WellStamped, BoundedSoFar, Occupies;
    StepKeepsBound(workers, s, a);
    StepKeepsStamps(workers, s, a);
    StepKeepsLog(workers, s, a);
  }

  lemma StepKeepsStamps(workers: int, s: State, a: Action)
    requires WellStamped(s) && s.now > 0 && Enabled(workers, s, a)
    ensures WellStamped(Step(workers, s, a))
  {
  }

  lemma StepKeepsLog(workers: int, s: State, a: Action)
    requires Logged(s) && Enabled(workers, s, a)
    ensures Logged(Step(workers, s, a))
  {
  }

  lemma {:induction false} RunKeepsInv(workers: int, commands: nat, states: seq<State>, actions: seq<Action>, k: nat)
    requires workers >= 0 && IsRun(workers, commands, states, actions) && k < |states|
    ensures Inv(workers, states[k]) && |states[k].jobs| == commands
  {
    if k == 0 {
      var s := states[0];
      AllWaiting(s.jobs, Occupies());
      forall t ensures SumOf(s.jobs, ActiveJob(t)) == 0 { AllWaiting(s.jobs, ActiveJob(t)); }
    } else {
      RunKeepsInv(workers, commands, states, actions, k - 1);
      StepKeepsInv(workers, states[k - 1], actions[k - 1]);
    }
  }

  // ----- what is reported -----

  /** Distinct jobs with both stamps, each with a name. */
  ghost predicate Reported(jobs: seq<Job>, collected: seq<nat>, names: seq<string>) {
    && |names| == |jobs|
    && (forall i :: 0 <= i < |collected| ==>
          collected[i] < |jobs| && (jobs[collected[i]].Stamped? || jobs[collected[i]].Released?))
    && (forall i, j :: 0 <= i < j < |collected| ==> collected[i] != collected[j])
  }

  /** The intervals of the collected outcomes. */
  ghost function Recorded(jobs: seq<Job>, collected: seq<nat>, names: seq<string>): seq<ActivityInterval>
    requires Reported(jobs, collected, names)
  {
    if collected == [] then []
    else
      var c := collected[0];
      [ActivityInterval(names[c], jobs[c].started, jobs[c].finished)] + Recorded(jobs, collected[1..], names)
  }

  lemma {:induction false} SameRecord(jobs: seq<Job>, jobs': seq<Job>, collected: seq<nat>, names: seq<string>)
    requires Reported(jobs, collected, names) && Reported(jobs', collected, names)
    requires forall i :: 0 <= i < |collected| ==> jobs[collected[i]] == jobs'[collected[i]]
    ensures Recorded(jobs, collected, names) == Recorded(jobs', collected, names)
  {
    if collected != [] { SameRecord(jobs, jobs', collected[1..], names); }
  }

  lemma {:induction false} RecordedIsCovered(jobs: seq<Job>, collected: seq<nat>, names: seq<string>, t: int)
    requires Reported(jobs, collected, names)
    ensures Cover(Recorded(jobs, collected, names), t) <= SumOf(jobs, ActiveJob(t))
    decreases |collected|
  {
    if collected == [] {
      SumOfIsNatural(jobs, ActiveJob(t));
    } else {
      var c, rest := collected[0], collected[1..];
      var jobs' := jobs[c := Waiting];
      SumOfUpdate(jobs, c, Waiting, ActiveJob(t));
      SameRecord(jobs, jobs', rest, names);
      RecordedIsCovered(jobs', rest, names, t);
    }
  }

  lemma {:induction false} SumOfIsNatural(jobs: seq<Job>, f: Job -> int)
    requires forall j :: f(j) >= 0
    ensures SumOf(jobs, f) >= 0
  {
    if jobs != [] { SumOfIsNatural(jobs[1..], f); }
  }

  /** In every run, at every point, the peak that the sweep finds in the intervals collected
      so far, in whatever order they are sorted, is at most the number of workers. A worker
      may take its next command at the very instant at which it stamped the last finish:
      the bound needs finishes to come before starts. */
  lemma PeakIsBounded(workers: int, commands: nat, states: seq<State>, actions: seq<Action>, k: nat, names: seq<string>)
    requires workers > 0 && IsRun(workers, commands, states, actions) && k < |states| && |names| == commands
    ensures var s := states[k];
            && Reported(s.jobs, s.collected, names)
            && forall intervals, peak ::
                 multiset(intervals) == multiset(Recorded(s.jobs, s.collected, names)) && IsPeak(intervals, peak) ==>
                   peak <= workers
  {
    var s := states[k];
    RunKeepsInv(workers, commands, states, actions, k);
    assert Reported(s.jobs, s.collected, names);
    forall intervals, peak
      | multiset(intervals) == multiset(Recorded(s.jobs, s.collected, names)) && IsPeak(intervals, peak)
      ensures peak <= workers
    {
      var t :| Cover(intervals, t) == peak;
      SumOfPermutation(intervals, Recorded(s.jobs, s.collected, names), ActiveAt(t));
      RecordedIsCovered(s.jobs, s.collected, names, t);
      if t >= s.now { ActiveNow(s, t); }
    }
  }

  /** The other order at equal stamps. */
  function StartsFirst(): (Event, Event) -> bool {
    (a: Event, b: Event) => a.stamp < b.stamp || (a.stamp == b.stamp && a.delta >= b.delta)
  }

  lemma TwoJobs(a: Job, b: Job)
    ensures SumOf([a, b], Occupies()) == Occupies()(a) + Occupies()(b)
  {
    assert [a, b][1..] == [b] && [b][1..] == [];
    assert SumOf([b], Occupies()) == Occupies()(b) + SumOf([b][1..], Occupies());
  }

  /** A worker that starts its second command at the instant at which it finished the first: a sweep with
      starts before finishes would count two active workers in a pool of one. */
  lemma StartsFirstOvercounts()
    returns (states: seq<State>, actions: seq<Action>, intervals: seq<ActivityInterval>, events: seq<Event>)
    ensures |states| > 0 && IsRun(1, 2, states, actions)
    ensures var s := states[|states| - 1];
            Reported(s.jobs, s.collected, ["a", "b"]) && intervals == Recorded(s.jobs, s.collected, ["a", "b"])
                && |intervals| == 2
    ensures multiset(events) == multiset(EventsOf(intervals)) && Sorted(events, StartsFirst())
    ensures HighestTotal(events) == 2
  {
    hide IsRun, SumOf, HighestTotal, EventsOf;
    states, actions := Handover();
    intervals := HandoverRecord(states[11].jobs);
    EventsOfTwo(intervals[0], intervals[1]);
    events := [Event(1, 1), Event(2, 1), Event(2, -1), Event(3, -1)];
    FourEvents(1, 1, -1, -1);
  }

  lemma HandoverRecord(jobs: seq<Job>) returns (intervals: seq<ActivityInterval>)
    requires jobs == [Released(1, 2), Stamped(2, 3)]
    ensures Reported(jobs, [0, 1], ["a", "b"]) && intervals == Recorded(jobs, [0, 1], ["a", "b"])
    ensures intervals == [ActivityInterval("a", 1, 2), ActivityInterval("b", 2, 3)]
  {
    assert [0, 1][1..] == [1] && [1][1..] == [];
    var a, b := ActivityInterval("a", 1, 2), ActivityInterval("b", 2, 3);
    assert Recorded(jobs, [1], ["a", "b"]) == [b] + Recorded(jobs, [1][1..], ["a", "b"]);
    intervals := [a, b];
  }

  lemma EventsOfTwo(a: ActivityInterval, b: ActivityInterval)
    ensures EventsOf([a, b]) == [Event(a.started, 1), Event(a.finished, -1), Event(b.started, 1), Event(b.finished, -1)]
  {
    assert [a, b][..1] == [a] && [a][..0] == [];
    assert EventsOf([a]) == EventsOf([]) + [Event(a.started, 1), Event(a.finished, -1)];
  }

  lemma FourEvents(p: int, q: int, r: int, s: int)
    ensures var events := [Event(1, p), Event(2, q), Event(2, r), Event(3, s)];
            HighestTotal(events) == Max(0, p + Max(0, q + Max(0, r + Max(0, s))))
  {
    var events := [Event(1, p), Event(2, q), Event(2, r), Event(3, s)];
    assert events[1..] == [Event(2, q), Event(2, r), Event(3, s)] && events[1..][1..] == [Event(2, r), Event(3, s)];
    assert events[1..][1..][1..] == [Event(3, s)] && [Event(3, s)][1..] == [];
    assert HighestTotal([Event(3, s)]) == Max(0, s);
    assert HighestTotal([Event(2, r), Event(3, s)]) == Max(0, r + Max(0, s));
  }

  lemma Handover() returns (states: seq<State>, actions: seq<Action>)
    ensures |states| == 12 && IsRun(1, 2, states, actions)
    ensures states[11].jobs == [Released(1, 2), Stamped(2, 3)] && states[11].collected == [0, 1]
  {
    hide IsRun, SumOf;
    states, actions := FirstTurn();
    TwoJobs(Released(1, 2), Waiting);
    states, actions := Extend(states, actions, Take(1), State(2, [Released(1, 2), Taken], [0, 1], []));
    states, actions := Extend(states, actions, Start(1), State(2, [Released(1, 2), Running(2)], [0, 1], []));
    states, actions := Extend(states, actions, Tick(3), State(3, [Released(1, 2), Running(2)], [0, 1], []));
    states, actions := Extend(states, actions, Finish(1), State(3, [Released(1, 2), Stamped(2, 3)], [0, 1], []));
    states, actions := Extend(states, actions, Collect(0), State(3, [Released(1, 2), Stamped(2, 3)], [0, 1], [0]));
    states, actions := Extend(states, actions, Collect(1), State(3, [Released(1, 2), Stamped(2, 3)], [0, 1], [0, 1]));
  }

  lemma FirstTurn() returns (states: seq<State>, actions: seq<Action>)
    ensures |states| == 6 && IsRun(1, 2, states, actions) && states[5] == State(2, [Released(1, 2), Waiting], [0], [])
  {
    hide IsRun, SumOf;
    states, actions := Begin();
    TwoJobs(Waiting, Waiting);
    states, actions := Extend(states, actions, Take(0), State(1, [Taken, Waiting], [0], []));
    states, actions := Extend(states, actions, Start(0), State(1, [Running(1), Waiting], [0], []));
    states, actions := Extend(states, actions, Tick(2), State(2, [Running(1), Waiting], [0], []));
    states, actions := Extend(states, actions, Finish(0), State(2, [Stamped(1, 2), Waiting], [0], []));
    states, actions := Extend(states, actions, Release(0), State(2, [Released(1, 2), Waiting], [0], []));
  }

  lemma Begin() returns (states: seq<State>, actions: seq<Action>)
    ensures states == [State(1, [Waiting, Waiting], [], [])] && actions == [] && IsRun(1, 2, states, actions)
  {
    states, actions := [State(1, [Waiting, Waiting], [], [])], [];
  }

  lemma Extend(states: seq<State>, actions: seq<Action>, a: Action, next: State)
    returns (states': seq<State>, actions': seq<Action>)
    requires |states| > 0 && IsRun(1, 2, states, actions) && Enabled(1, states[|states| - 1], a)
    requires next == Step(1, states[|states| - 1], a)
    ensures |states'| == |states| + 1 && IsRun(1, 2, states', actions') && states'[|states|] == next
  {
    hide Init, Enabled, Step;
    states', actions' := states + [next], actions + [a];
  }

  /** Once every outcome is collected, every command was launched once and collected once. */
  lemma EachCommandRunsOnce(workers: int, commands: nat, states: seq<State>, actions: seq<Action>, k: nat)
    requires workers > 0 && IsRun(workers, commands, states, actions) && k < |states|
    ensures forall c :: multiset(states[k].launched)[c] <= 1
    ensures |states[k].collected| <= commands
    ensures |states[k].collected| == commands ==>
              forall c :: 0 <= c < commands ==>
                multiset(states[k].launched)[c] == 1 && multiset(states[k].collected)[c] == 1
  {
    var s := states[k];
    RunKeepsInv(workers, commands, states, actions, k);
    DistinctBound(s.collected, commands);
    forall c ensures multiset(s.launched)[c] <= 1 {
      if c in multiset(s.launched) { assert c in s.launched; }
    }
    if |s.collected| == commands {
      forall c: nat | c < commands ensures multiset(s.launched)[c] == 1 {
        assert c in multiset(s.collected);
        assert c in s.collected;
      }
    }
  }

  /** Distinct numbers below n: at most n of them, and if n then all, each once. */
  lemma {:induction false} DistinctBound(xs: seq<nat>, n: nat)
    requires forall i, j :: 0 <= i < j < |xs| ==> xs[i] != xs[j]
    requires forall i :: 0 <= i < |xs| ==> xs[i] < n
    ensures |xs| <= n
    ensures |xs| == n ==> forall c :: 0 <= c < n ==> multiset(xs)[c] == 1
    decreases n
  {
    if k :| 0 <= k < |xs| && xs[k] == n - 1 {
      var ys := xs[..k] + xs[k + 1..];
      assert forall i :: 0 <= i < |ys| ==> ys[i] == xs[if i < k then i else i + 1];
      DistinctBound(ys, n - 1);
      SplitCounts(xs, k);
      assert n - 1 !in ys;
    } else if xs != [] {
      assert xs[0] < n;
      DistinctBound(xs, n - 1);
    }
  }

  lemma SplitCounts(xs: seq<nat>, k: nat)
    requires k < |xs|
    ensures multiset(xs) == multiset(xs[..k] + xs[k + 1..]) + multiset{xs[k]}
  {
    assert xs == xs[..k] + [xs[k]] + xs[k + 1..];
  }

  // ----- progress -----

  function Left(): Job -> int {
    (j: Job) => if j.Waiting? then 4 else if j.Taken? then 3 else if j.Running? then 2 else if j.Stamped? then 1 else 0
  }

  /** Until all is collected some step other than the clock is possible, and each such step
      brings the end nearer: no run can stall or go on forever without the clock alone. */
  lemma SomeStepIsEnabled(workers: int, s: State) returns (a: Action)
    requires workers > 0 && Inv(workers, s) && |s.collected| < |s.jobs|
    ensures !a.Tick? && Enabled(workers, s, a)
    ensures var s' := Step(workers, s, a);
            SumOf(s'.jobs, Left()) - |s'.collected| < SumOf(s.jobs, Left()) - |s.collected|
  {
    if c :| 0 <= c < |s.jobs| && s.jobs[c].Taken? {
      a := Start(c);
    } else if c :| 0 <= c < |s.jobs| && s.jobs[c].Running? {
      a := Finish(c);
    } else if c :| 0 <= c < |s.jobs| && s.jobs[c].Stamped? {
      a := Release(c);
    } else if c :| 0 <= c < |s.jobs| && s.jobs[c].Waiting? {
      a := Take(c);
      NoneOccupied(s.jobs);
    } else {
      var c := Uncollected(s.collected, |s.jobs|);
      a := Collect(c);
    }
    if !a.Collect? { SumOfUpdate(s.jobs, a.job, Step(workers, s, a).jobs[a.job], Left()); }
  }

  lemma {:induction false} NoneOccupied(jobs: seq<Job>)
    requires forall c :: 0 <= c < |jobs| ==> !jobs[c].Taken? && !jobs[c].Running? && !jobs[c].Stamped?
    ensures SumOf(jobs, Occupies()) == 0
  {
    if jobs != [] { NoneOccupied(jobs[1..]); }
  }

  lemma {:induction false} Uncollected(collected: seq<nat>, n: nat) returns (c: nat)
    requires |collected| < n
    ensures c < n && c !in collected
  {
    if k :| 0 <= k < |collected| && collected[k] == n - 1 {
      var rest := collected[..k] + collected[k + 1..];
      c := Uncollected(rest, n - 1);
      assert forall i :: 0 <= i < |collected| && i != k ==> collected[i] == rest[if i < k then i else i - 1];
    } else {
      c := n - 1;
    }
  }
}
