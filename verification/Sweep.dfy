/** Concurrency accounting of experiments/cooperbench/physical_parallel.py: the event sweep
    that reports how many workers were active at once, against its meaning, a maximum over
    all instants. Time is counted in nanoseconds. */
module Sweep {
  import opened Ordering
  import opened Sums

  datatype ActivityInterval = ActivityInterval(name: string, started: int, finished: int) {
    /** What the constructor of the source insists on. */
    predicate Valid() {
      name != "" && started > 0 && finished > 0 && started <= finished
    }

    function Duration(): int { finished - started }
  }

  predicate AllValid(intervals: seq<ActivityInterval>) {
    forall i :: 0 <= i < |intervals| ==> intervals[i].Valid()
  }

  // ----- the meaning -----

  function ActiveAt(t: int): ActivityInterval -> int {
    (i: ActivityInterval) => if i.started <= t < i.finished then 1 else 0
  }

  /** How many intervals are active at instant t. */
  function Cover(intervals: seq<ActivityInterval>, t: int): int { SumOf(intervals, ActiveAt(t)) }

  /** The largest number of intervals active at one instant. */
  ghost predicate IsPeak(intervals: seq<ActivityInterval>, peak: int) {
    (forall t :: Cover(intervals, t) <= peak) && exists t :: Cover(intervals, t) == peak
  }

  function Busy(intervals: seq<ActivityInterval>): int {
    SumOf(intervals, (i: ActivityInterval) => i.Duration())
  }

  function FirstStart(intervals: seq<ActivityInterval>): (r: int)
    requires intervals != []
    ensures forall i :: 0 <= i < |intervals| ==> r <= intervals[i].started
    ensures exists i :: 0 <= i < |intervals| && r == intervals[i].started
  {
    if |intervals| == 1 then intervals[0].started
    else
      var r := FirstStart(intervals[1..]);
      assert forall i :: 1 <= i < |intervals| ==> intervals[i] == intervals[1..][i - 1];
      if intervals[0].started <= r then intervals[0].started else r
  }

  function LastFinish(intervals: seq<ActivityInterval>): (r: int)
    requires intervals != []
    ensures forall i :: 0 <= i < |intervals| ==> intervals[i].finished <= r
    ensures exists i :: 0 <= i < |intervals| && r == intervals[i].finished
  {
    if |intervals| == 1 then intervals[0].finished
    else
      var r := LastFinish(intervals[1..]);
      assert forall i :: 1 <= i < |intervals| ==> intervals[i] == intervals[1..][i - 1];
      if intervals[0].finished >= r then intervals[0].finished else r
  }

  // ----- events -----

  datatype Event = Event(stamp: int, delta: int)

  /** The sort key: at equal stamps a finish comes before a start. */
  function NotAfter(): (Event, Event) -> bool {
    (a: Event, b: Event) => a.stamp < b.stamp || (a.stamp == b.stamp && a.delta <= b.delta)
  }

  function EventsOf(intervals: seq<ActivityInterval>): seq<Event> {
    if intervals == [] then []
    else
      var last := intervals[|intervals| - 1];
      EventsOf(intervals[..|intervals| - 1]) + [Event(last.started, 1), Event(last.finished, -1)]
  }

  function UpTo(t: int): Event -> int { (e: Event) => if e.stamp <= t then e.delta else 0 }

  /** The net effect of all events up to and including instant t. */
  function Level(events: seq<Event>, t: int): int { SumOf(events, UpTo(t)) }

  function Max(a: int, b: int): int { if a >= b then a else b }

  /** The highest running total over all prefixes, the empty one included. */
  function HighestTotal(events: seq<Event>): (r: int)
    ensures r >= 0
  {
    if events == [] then 0 else Max(0, events[0].delta + HighestTotal(events[1..]))
  }

  lemma {:induction false} LevelOfEvents(intervals: seq<ActivityInterval>, t: int)
    requires AllValid(intervals)
    ensures Level(EventsOf(intervals), t) == Cover(intervals, t)
  {
    if intervals != [] {
      var init, last := intervals[..|intervals| - 1], intervals[|intervals| - 1];
      LevelOfEvents(init, t);
      var pair := [Event(last.started, 1), Event(last.finished, -1)];
      assert SumOf(pair, UpTo(t)) == UpTo(t)(pair[0]) + (UpTo(t)(pair[1]) + SumOf(pair[1..][1..], UpTo(t)));
      SumOfConcat(EventsOf(init), pair, UpTo(t));
      assert intervals == init + [last];
      SumOfConcat(init, [last], ActiveAt(t));
    }
  }

  lemma {:induction false} LevelBeforeAll(events: seq<Event>, t: int)
    requires forall i :: 0 <= i < |events| ==> t < events[i].stamp
    ensures Level(events, t) == 0
  {
    if events != [] { LevelBeforeAll(events[1..], t); }
  }

  /** No instant sees more than the highest running total of the sorted events. */
  lemma {:induction false} LevelIsBounded(events: seq<Event>, t: int)
    requires Sorted(events, NotAfter())
    ensures Level(events, t) <= HighestTotal(events)
  {
    if events != [] {
      if events[0].stamp > t { LevelBeforeAll(events, t); } else { LevelIsBounded(events[1..], t); }
    }
  }

  lemma {:induction false} LevelOfStarts(events: seq<Event>, t: int)
    requires forall i :: 0 <= i < |events| ==> events[i].stamp <= t ==> events[i].delta >= 0
    ensures Level(events, t) >= 0
  {
    if events != [] { LevelOfStarts(events[1..], t); }
  }

  /** And some instant sees exactly that much: this is where finishes come first. */
  lemma {:induction false} LevelIsReached(events: seq<Event>) returns (t: int)
    requires Sorted(events, NotAfter())
    ensures Level(events, t) == HighestTotal(events)
  {
    if events == [] {
      t := 0;
    } else if HighestTotal(events) == 0 {
      t := events[0].stamp - 1;
      LevelBeforeAll(events, t);
    } else {
      t := LevelIsReached(events[1..]);
      if t < events[0].stamp {
        LevelBeforeAll(events[1..], t);
        t := events[0].stamp;
        LevelOfStarts(events[1..], t);
        LevelIsBounded(events[1..], t);
      }
    }
  }

  // ----- the area below the curve -----

  function Clipped(lo: int, hi: int): ActivityInterval -> int {
    (i: ActivityInterval) =>
      Max(0, (if i.finished <= hi then i.finished else hi) - (if i.started >= lo then i.started else lo))
  }

  lemma {:induction false} ClippedStep(intervals: seq<ActivityInterval>, lo: int, hi: int)
    requires AllValid(intervals) && lo < hi
    ensures SumOf(intervals, Clipped(lo, hi)) == SumOf(intervals, Clipped(lo, hi - 1)) + Cover(intervals, hi - 1)
  {
    if intervals != [] { ClippedStep(intervals[1..], lo, hi); }
  }

  lemma {:induction false} ClippedToNothing(intervals: seq<ActivityInterval>, lo: int)
    ensures SumOf(intervals, Clipped(lo, lo)) == 0
  {
    if intervals != [] { ClippedToNothing(intervals[1..], lo); }
  }

  lemma {:induction false} ClippedIsBounded(intervals: seq<ActivityInterval>, lo: int, hi: int, peak: int)
    requires AllValid(intervals) && lo <= hi && forall t :: Cover(intervals, t) <= peak
    ensures SumOf(intervals, Clipped(lo, hi)) <= peak * (hi - lo)
    decreases hi - lo
  {
    if lo == hi {
      ClippedToNothing(intervals, lo);
    } else {
      ClippedIsBounded(intervals, lo, hi - 1, peak);
      ClippedStep(intervals, lo, hi);
      assert peak * (hi - lo) == peak * (hi - 1 - lo) + peak;
    }
  }

  lemma {:induction false} BusyIsClipped(intervals: seq<ActivityInterval>, lo: int, hi: int)
    requires AllValid(intervals)
    requires forall i :: 0 <= i < |intervals| ==> lo <= intervals[i].started && intervals[i].finished <= hi
    ensures Busy(intervals) == SumOf(intervals, Clipped(lo, hi))
  {
    if intervals != [] { BusyIsClipped(intervals[1..], lo, hi); }
  }

  /** Total busy time is at most peak times wall time, zero-length intervals included. */
  lemma BusyIsBounded(intervals: seq<ActivityInterval>, peak: int)
    requires intervals != [] && AllValid(intervals) && IsPeak(intervals, peak)
    ensures Busy(intervals) <= peak * (LastFinish(intervals) - FirstStart(intervals))
  {
    var lo, hi := FirstStart(intervals), LastFinish(intervals);
    BusyIsClipped(intervals, lo, hi);
    ClippedIsBounded(intervals, lo, hi, peak);
  }

  // ----- the operation -----

  /** The events in the order in which the source appends them. */
  method ListEvents(intervals: seq<ActivityInterval>) returns (events: seq<Event>)
    ensures events == EventsOf(intervals)
  {
    events := [];
    for k := 0 to |intervals|
      invariant events == EventsOf(intervals[..k])
    {
      assert intervals[..k + 1][..k] == intervals[..k];
      events := events + [Event(intervals[k].started, 1), Event(intervals[k].finished, -1)];
    }
    assert intervals[..|intervals|] == intervals;
  }

  method SweepEvents(events: seq<Event>) returns (peak: int)
    ensures peak == HighestTotal(events)
  {
    var active := 0;
    peak := 0;
    assert events[0..] == events;
    for k := 0 to |events|
      invariant Max(peak, active + HighestTotal(events[k..])) == HighestTotal(events)
      invariant active <= peak
    {
      assert events[k..][1..] == events[k + 1..];
      active := active + events[k].delta;
      peak := Max(peak, active);
    }
  }

  datatype Summary = Summary(workers: nat, wall: int, busy: int, efficiency: real, peak: int)

  /** `aggregate_worker_overlap`, with the efficiency as an exact quotient. */
  method AggregateWorkerOverlap(intervals: seq<ActivityInterval>) returns (s: Summary)
    requires AllValid(intervals)
    ensures s.workers == |intervals|
    ensures IsPeak(intervals, s.peak)
    ensures s.busy == Busy(intervals)
    ensures intervals == [] ==> s.wall == 0
    ensures intervals != [] ==> s.wall == LastFinish(intervals) - FirstStart(intervals)
    ensures s.efficiency == if s.wall > 0 then s.busy as real / s.wall as real else 0.0
    ensures 0.0 <= s.efficiency <= s.peak as real
  {
    if intervals == [] {
      assert Cover(intervals, 0) == 0;
      return Summary(0, 0, 0, 0.0, 0);
    }
    hide Sort, Busy, Cover, HighestTotal, FirstStart, LastFinish;
    var events := ListEvents(intervals);
    events := Sort(events, NotAfter());
    var peak := SweepEvents(events);
    SweepFindsThePeak(intervals, events, peak);
    BusyIsBounded(intervals, peak);
    BusyIsNatural(intervals);
    PeakIsNatural(intervals, peak);
    var wall := LastFinish(intervals) - FirstStart(intervals);
    var busy := Busy(intervals);
    if wall > 0 { QuotientIsBounded(busy, peak, wall); }
    var efficiency := if wall > 0 then busy as real / wall as real else 0.0;
    s := Summary(|intervals|, wall, busy, efficiency, peak);
  }

  lemma PeakIsNatural(intervals: seq<ActivityInterval>, peak: int)
    requires AllValid(intervals) && IsPeak(intervals, peak)
    ensures peak >= 0
  {
    CoverIsNatural(intervals, 0);
  }

  lemma {:induction false} CoverIsNatural(intervals: seq<ActivityInterval>, t: int)
    ensures Cover(intervals, t) >= 0
  {
    if intervals != [] { CoverIsNatural(intervals[1..], t); }
  }

  lemma SweepFindsThePeak(intervals: seq<ActivityInterval>, events: seq<Event>, peak: int)
    requires AllValid(intervals) && events == Sort(EventsOf(intervals), NotAfter())
    requires peak == HighestTotal(events)
    ensures IsPeak(intervals, peak)
  {
    SortSorts(EventsOf(intervals), NotAfter());
    forall t ensures Level(events, t) == Cover(intervals, t) {
      SumOfPermutation(events, EventsOf(intervals), UpTo(t));
      LevelOfEvents(intervals, t);
    }
    forall t ensures Cover(intervals, t) <= peak {
      LevelIsBounded(events, t);
    }
    var t := LevelIsReached(events);
  }

  lemma {:induction false} BusyIsNatural(intervals: seq<ActivityInterval>)
    requires AllValid(intervals)
    ensures Busy(intervals) >= 0
  {
    if intervals != [] { BusyIsNatural(intervals[1..]); }
  }

  lemma QuotientIsBounded(busy: int, peak: int, wall: int)
    requires wall > 0 && 0 <= busy <= peak * wall
    ensures 0.0 <= busy as real / wall as real <= peak as real
  {
    assert busy as real <= (peak * wall) as real == peak as real * wall as real;
  }

  // ----- consequences -----

  /** The order in which intervals are recorded does not matter. */
  lemma PeakIgnoresOrder(a: seq<ActivityInterval>, b: seq<ActivityInterval>, peakA: int, peakB: int)
    requires multiset(a) == multiset(b) && IsPeak(a, peakA) && IsPeak(b, peakB)
    ensures peakA == peakB && Busy(a) == Busy(b)
  {
    forall t ensures Cover(a, t) == Cover(b, t) {
      SumOfPermutation(a, b, ActiveAt(t));
    }
    SumOfPermutation(a, b, (i: ActivityInterval) => i.Duration());
    var t :| Cover(a, t) == peakA;
    var u :| Cover(b, u) == peakB;
  }

  // ----- two intervals -----

  datatype OverlapMetrics = OverlapMetrics(overlap: int, union: int, shorter: int, fraction: real, concurrent: bool)

  function Min(a: int, b: int): int { if a <= b then a else b }

  /** `interval_overlap` */
  function IntervalOverlap(left: ActivityInterval, right: ActivityInterval): OverlapMetrics {
    var overlap := Max(0, Min(left.finished, right.finished) - Max(left.started, right.started));
    var union := Max(left.finished, right.finished) - Min(left.started, right.started);
    var shorter := Min(left.Duration(), right.Duration());
    OverlapMetrics(overlap, union, shorter, if shorter > 0 then overlap as real / shorter as real else 0.0, overlap > 0)
  }

  lemma PairCover(left: ActivityInterval, right: ActivityInterval, t: int)
    ensures Cover([left, right], t) == ActiveAt(t)(left) + ActiveAt(t)(right)
  {
    assert [left, right][1..] == [right] && [right][1..] == [];
    assert SumOf([right], ActiveAt(t)) == ActiveAt(t)(right) + SumOf([right][1..], ActiveAt(t));
  }

  /** The sweep and the pairwise measure agree on what concurrent means. */
  lemma PairPeak(left: ActivityInterval, right: ActivityInterval, peak: int)
    requires left.Valid() && right.Valid() && IsPeak([left, right], peak)
    ensures peak == 2 <==> IntervalOverlap(left, right).concurrent
    ensures peak <= 2
  {
    var pair := [left, right];
    forall t ensures Cover(pair, t) == ActiveAt(t)(left) + ActiveAt(t)(right) {
      PairCover(left, right, t);
    }
    var t :| Cover(pair, t) == peak;
    assert Cover(pair, Max(left.started, right.started)) <= peak;
  }

  /** The instants in [lo, hi) at which at least n of the intervals are active. */
  function Instants(intervals: seq<ActivityInterval>, n: int, lo: int, hi: int): int
    decreases hi - lo
  {
    if hi <= lo then 0
    else Instants(intervals, n, lo, hi - 1) + (if Cover(intervals, hi - 1) >= n then 1 else 0)
  }

  lemma {:induction false} PairInstants(left: ActivityInterval, right: ActivityInterval, lo: int, hi: int)
    requires left.Valid() && right.Valid() && lo <= left.started && lo <= right.started
    ensures Instants([left, right], 2, lo, hi)
         == Max(0, Min(hi, Min(left.finished, right.finished)) - Max(left.started, right.started))
    ensures Instants([left, right], 1, lo, hi)
         == Max(0, Min(hi, left.finished) - left.started) + Max(0, Min(hi, right.finished) - right.started)
            - Instants([left, right], 2, lo, hi)
    decreases hi - lo
  {
    if hi > lo {
      PairInstants(left, right, lo, hi - 1);
      PairCover(left, right, hi - 1);
    }
  }

  /** The overlap counts the instants both share. What is reported as the union is the whole
      stretch from first start to last finish: it counts the covered instants exactly when
      the two intervals leave no gap between them. */
  lemma OverlapMeaning(left: ActivityInterval, right: ActivityInterval)
    requires left.Valid() && right.Valid()
    ensures var m := IntervalOverlap(left, right);
            var lo, hi := Min(left.started, right.started), Max(left.finished, right.finished);
            && m.overlap == Instants([left, right], 2, lo, hi)
            && 0.0 <= m.fraction <= 1.0
            && (m.union == Instants([left, right], 1, lo, hi)
                <==> Max(left.started, right.started) <= Min(left.finished, right.finished))
  {
    var m, lo, hi := IntervalOverlap(left, right), Min(left.started, right.started), Max(left.finished, right.finished);
    PairInstants(left, right, lo, hi);
    if m.shorter > 0 { QuotientIsBounded(m.overlap, 1, m.shorter); }
  }
}
