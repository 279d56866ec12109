/** The stream pump of src/claim_plane/runtime_progress.py and `_stream_runtime` of
    src/claim_plane/controlled_run.py: two reader threads, one FIFO queue, one consumer that
    may run into its timeout or be interrupted, in any interleaving. */
module Pump {

  datatype Source = Out | Err

  /** What a reader puts on the queue; `End` is the None it always puts last. */
  datatype Event = Line(source: Source, text: string) | End(source: Source)

  // ----- the consumer -----

  datatype Status = Running | Drained | TimedOut | Interrupted

  /** The local variables of the consumer loop; `summary` is what folding the stdout lines has
      come to. */
  datatype Consumer<S> = Consumer(open: nat, out: seq<string>, err: seq<string>, summary: S, status: Status) {
    function Captured(s: Source): seq<string> { if s.Out? then out else err }
  }

  /** What one turn of the loop meets. An interrupt may strike after an event was taken from
      the queue and before it was kept. */
  datatype Turn = Got(event: Event) | Nothing | TimeUp | Stop | StopHolding(event: Event)

  function Start<S>(summary: S): Consumer<S> { Consumer(2, [], [], summary, Running) }

  function Take<S>(c: Consumer<S>, t: Turn, observe: (S, string) -> S): Consumer<S>
    requires c.status == Running && c.open > 0
  {
    match t
    case Nothing => c
    case TimeUp => c.(status := TimedOut)
    case Stop => c.(status := Interrupted)
    case StopHolding(_) => c.(status := Interrupted)
    case Got(End(_)) => c.(open := c.open - 1, status := if c.open == 1 then Drained else Running)
    case Got(Line(s, text)) =>
      if s.Out? then c.(out := c.out + [text], summary := observe(c.summary, text)) else c.(err := c.err + [text])
  }

  /** The consumer over all turns, up to its end. */
  function TakeAll<S>(c: Consumer<S>, turns: seq<Turn>, observe: (S, string) -> S): Consumer<S>
    decreases |turns|
  {
    if turns == [] || c.status != Running || c.open == 0 then c
    else TakeAll(Take(c, turns[0], observe), turns[1..], observe)
  }

  /** `run_streaming_process` and `_stream_runtime`, from the turns as they come. */
  method Consume<S>(turns: seq<Turn>, initial: S, observe: (S, string) -> S)
    returns (out: seq<string>, err: seq<string>, summary: S, openStreams: nat, timedOut: bool, interrupted: bool)
    ensures var c := TakeAll(Start(initial), turns, observe);
            && out == c.out && err == c.err && summary == c.summary && openStreams == c.open
            && timedOut == (c.status == TimedOut) && interrupted == (c.status == Interrupted)
            && (c.status == Drained <==> openStreams == 0)
  {
    out, err, summary, openStreams, timedOut, interrupted := [], [], initial, 2, false, false;
    var k := 0;
    assert turns[0..] == turns;
    while openStreams != 0 && k < |turns|
      invariant k <= |turns| && !timedOut && !interrupted
      invariant TakeAll(Start(initial), turns, observe)
             == TakeAll(Consumer(openStreams, out, err, summary, if openStreams == 0 then Drained else Running),
                        turns[k..], observe)
    {
      var turn := turns[k];
      assert turns[k..][1..] == turns[k + 1..];
      k := k + 1;
      match turn {
        case Nothing => continue;
        case TimeUp => timedOut := true; break;
        case Stop => interrupted := true; break;
        case StopHolding(_) => interrupted := true; break;
        case Got(End(_)) => openStreams := openStreams - 1;
        case Got(Line(source, text)) =>
          if source.Out? {
            out := out + [text];
            summary := observe(summary, text);
          } else {
            err := err + [text];
          }
      }
    }
  }

  /** The fold that the summary stands for. */
  function Fold<S>(s: S, lines: seq<string>, observe: (S, string) -> S): S {
    if lines == [] then s else observe(Fold(s, lines[..|lines| - 1], observe), lines[|lines| - 1])
  }

  // ----- the whole system -----

  /** One reader: everything the process writes on its stream, how much of it was read, and
      whether the reader has put its None. */
  datatype Reader = Reader(written: seq<string>, read: nat, ended: bool)

  datatype System<S> = System(out: Reader, err: Reader, queue: seq<Event>, consumer: Consumer<S>) {
    function Of(s: Source): Reader { if s.Out? then out else err }

    function With(s: Source, r: Reader): System<S> { if s.Out? then this.(out := r) else this.(err := r) }
  }

  datatype Action =
    | Put(source: Source)            // a line was read and queued
    | Finish(source: Source)         // end of stream
    | Break(source: Source)          // the reader failed; it still puts its None
    | Turn'(turn: Turn)

  /** What the process writes on its two streams. */
  datatype Written = Written(out: seq<string>, err: seq<string>) {
    function Of(s: Source): seq<string> { if s.Out? then out else err }
  }

  ghost predicate Init<S>(s: System<S>, written: Written, summary: S) {
    s == System(Reader(written.out, 0, false), Reader(written.err, 0, false), [], Start(summary))
  }

  predicate Enabled<S>(s: System<S>, a: Action) {
    match a
    case Put(src) => !s.Of(src).ended && s.Of(src).read < |s.Of(src).written|
    case Finish(src) => !s.Of(src).ended && s.Of(src).read == |s.Of(src).written|
    case Break(src) => !s.Of(src).ended
    case Turn'(t) =>
      && s.consumer.status == Running && s.consumer.open > 0
      && match t
         case Got(e) => s.queue != [] && s.queue[0] == e
         case StopHolding(e) => s.queue != [] && s.queue[0] == e
         case _ => true
  }

  function Step<S>(s: System<S>, a: Action, observe: (S, string) -> S): System<S>
    requires Enabled(s, a)
  {
    match a
    case Put(src) =>
      var r := s.Of(src);
      s.With(src, r.(read := r.read + 1)).(queue := s.queue + [Line(src, r.written[r.read])])
    case Finish(src) => s.With(src, s.Of(src).(ended := true)).(queue := s.queue + [End(src)])
    case Break(src) => s.With(src, s.Of(src).(ended := true)).(queue := s.queue + [End(src)])
    case Turn'(t) =>
      s.(queue := if t.Got? || t.StopHolding? then s.queue[1..] else s.queue, consumer := Take(s.consumer, t, observe))
  }

  ghost predicate IsRun<S>(states: seq<System<S>>, actions: seq<Action>, observe: (S, string) -> S) {
    && |states| == |actions| + 1
    && forall k :: 0 <= k < |actions| ==>
         Enabled(states[k], actions[k]) && states[k + 1] == Step(states[k], actions[k], observe)
  }

  // ----- the invariant -----

  function LinesIn(queue: seq<Event>, src: Source): seq<string> {
    if queue == [] then []
    else (if queue[0].Line? && queue[0].source == src then [queue[0].text] else []) + LinesIn(queue[1..], src)
  }

  function EndsIn(queue: seq<Event>, src: Source): nat {
    if queue == [] then 0 else (if queue[0] == End(src) then 1 else 0) + EndsIn(queue[1..], src)
  }

  /** Nothing of a source comes after its None. */
  ghost predicate EndsLast(queue: seq<Event>, src: Source) {
    forall i, j :: 0 <= i < j < |queue| && queue[i] == End(src) ==> queue[j].source != src
  }

  lemma {:induction false} QueueAppend(queue: seq<Event>, e: Event, src: Source)
    ensures LinesIn(queue + [e], src) == LinesIn(queue, src) + (if e.Line? && e.source == src then [e.text] else [])
    ensures EndsIn(queue + [e], src) == EndsIn(queue, src) + (if e == End(src) then 1 else 0)
  {
    if queue != [] {
      QueueAppend(queue[1..], e, src);
      assert (queue + [e])[1..] == queue[1..] + [e];
    } else {
      assert (queue + [e])[1..] == [];
    }
  }

  lemma {:induction false} NoEndInside(queue: seq<Event>, src: Source)
    requires EndsIn(queue, src) == 0
    ensures forall i :: 0 <= i < |queue| ==> queue[i] != End(src)
  {
    if queue != [] { NoEndInside(queue[1..], src); }
  }

  lemma {:induction false} NothingOf(queue: seq<Event>, src: Source)
    requires forall i :: 0 <= i < |queue| ==> queue[i].source != src
    ensures LinesIn(queue, src) == [] && EndsIn(queue, src) == 0
  {
    if queue != [] { NothingOf(queue[1..], src); }
  }

  /** One stream: what was kept, followed by what is queued, is what was read. Once the None
      was taken from the queue (`closed`), nothing of the stream is queued any more. */
  ghost predicate StreamInv(r: Reader, queue: seq<Event>, kept: seq<string>, src: Source, closed: bool, exact: bool) {
    && r.read <= |r.written|
    && kept <= r.written[..r.read]
    && (exact ==> kept + LinesIn(queue, src) == r.written[..r.read])
    && EndsIn(queue, src) + (if closed then 1 else 0) == (if r.ended then 1 else 0)
    && EndsLast(queue, src)
    && (closed ==> LinesIn(queue, src) == [])
  }

  ghost predicate Inv<S>(s: System<S>, closed: set<Source>) {
    var exact := s.consumer.status != Interrupted;
    && StreamInv(s.out, s.queue, s.consumer.out, Out, Out in closed, exact)
    && StreamInv(s.err, s.queue, s.consumer.err, Err, Err in closed, exact)
    && (exact ==> s.consumer.open == 2 - |closed|)
    && (s.consumer.status == Drained <==> s.consumer.open == 0)
  }

  lemma PutKeeps(r: Reader, queue: seq<Event>, kept: seq<string>, src: Source, closed: bool, exact: bool)
    requires StreamInv(r, queue, kept, src, closed, exact) && !r.ended && r.read < |r.written|
    ensures StreamInv(r.(read := r.read + 1), queue + [Line(src, r.written[r.read])], kept, src, closed, exact)
  {
    QueueAppend(queue, Line(src, r.written[r.read]), src);
    NoEndInside(queue, src);
    assert r.written[..r.read + 1] == r.written[..r.read] + [r.written[r.read]];
  }

  lemma EndKeeps(r: Reader, queue: seq<Event>, kept: seq<string>, src: Source, closed: bool, exact: bool)
    requires StreamInv(r, queue, kept, src, closed, exact) && !r.ended
    ensures StreamInv(r.(ended := true), queue + [End(src)], kept, src, closed, exact)
  {
    QueueAppend(queue, End(src), src);
    NoEndInside(queue, src);
  }

  /** An event of the other stream changes nothing here. */
  lemma OtherPut(r: Reader, queue: seq<Event>, kept: seq<string>, src: Source, closed: bool, exact: bool, e: Event)
    requires StreamInv(r, queue, kept, src, closed, exact) && e.source != src
    ensures StreamInv(r, queue + [e], kept, src, closed, exact)
  {
    QueueAppend(queue, e, src);
  }

  /** Taking the first event off the queue. */
  lemma TakeKeeps(r: Reader, queue: seq<Event>, kept: seq<string>, src: Source, closed: bool, held: bool)
    requires queue != [] && StreamInv(r, queue, kept, src, closed, true)
    ensures var e := queue[0];
            var kept' := if !held && e.Line? && e.source == src then kept + [e.text] else kept;
            StreamInv(r, queue[1..], kept', src, closed || e == End(src), !held)
  {
    var e := queue[0];
    if e == End(src) { NothingOf(queue[1..], src); }
    if e.Line? && e.source == src {
      assert kept + LinesIn(queue, src) == (kept + [e.text]) + LinesIn(queue[1..], src);
    }
  }

  /** What a reader step does to one of the two streams. */
  lemma PutOnQueue<S>(s: System<S>, a: Action, src: Source, closed: bool, exact: bool, observe: (S, string) -> S)
    requires Enabled(s, a) && !a.Turn'?
    requires StreamInv(s.Of(src), s.queue, s.consumer.Captured(src), src, closed, exact)
    ensures var s' := Step(s, a, observe);
            StreamInv(s'.Of(src), s'.queue, s'.consumer.Captured(src), src, closed, exact)
  {
    hide StreamInv;
    var kept := s.consumer.Captured(src);
    if src != a.source {
      var queue' := Step(s, a, observe).queue;
      OtherPut(s.Of(src), s.queue, kept, src, closed, exact, queue'[|queue'| - 1]);
    } else if a.Put? {
      PutKeeps(s.Of(src), s.queue, kept, src, closed, exact);
    } else {
      EndKeeps(s.Of(src), s.queue, kept, src, closed, exact);
    }
  }

  lemma ReaderStepKeeps<S>(s: System<S>, a: Action, closed: set<Source>, observe: (S, string) -> S)
    requires Inv(s, closed) && Enabled(s, a) && !a.Turn'?
    ensures Inv(Step(s, a, observe), closed)
  {
    hide StreamInv;
    var exact := s.consumer.status != Interrupted;
    PutOnQueue(s, a, Out, Out in closed, exact, observe);
    PutOnQueue(s, a, Err, Err in closed, exact, observe);
  }

  /** An end taken from the queue is the first of its stream. */
  lemma EndIsNew(r: Reader, queue: seq<Event>, kept: seq<string>, src: Source, closed: bool)
    requires queue != [] && queue[0] == End(src) && StreamInv(r, queue, kept, src, closed, true)
    ensures !closed
  {
  }

  lemma Inexact(r: Reader, queue: seq<Event>, kept: seq<string>, src: Source, closed: bool)
    requires StreamInv(r, queue, kept, src, closed, true)
    ensures StreamInv(r, queue, kept, src, closed, false)
  {
  }

  lemma TurnKeeps<S>(s: System<S>, t: Turn, closed: set<Source>, observe: (S, string) -> S)
    returns (closed': set<Source>)
    requires Inv(s, closed) && Enabled(s, Turn'(t))
    ensures Inv(Step(s, Turn'(t), observe), closed')
  {
    hide StreamInv;
    closed' := closed;
    if t.Got? || t.StopHolding? {
      var e, held := s.queue[0], t.StopHolding?;
      TakeKeeps(s.out, s.queue, s.consumer.out, Out, Out in closed, held);
      TakeKeeps(s.err, s.queue, s.consumer.err, Err, Err in closed, held);
      if e.End? {
        EndIsNew(s.Of(e.source), s.queue, s.consumer.Captured(e.source), e.source, e.source in closed);
        closed' := closed + {e.source};
      }
    } else {
      Inexact(s.out, s.queue, s.consumer.out, Out, Out in closed);
      Inexact(s.err, s.queue, s.consumer.err, Err, Err in closed);
    }
  }

  // ----- the consumer loop inside a run -----

  function TurnsOf(actions: seq<Action>): seq<Turn> {
    if actions == [] then []
    else
      var last := actions[|actions| - 1];
      TurnsOf(actions[..|actions| - 1]) + (if last.Turn'? then [last.turn] else [])
  }

  lemma {:induction false} TakeAllOneMore<S>(c: Consumer<S>, turns: seq<Turn>, t: Turn, observe: (S, string) -> S)
    requires var d := TakeAll(c, turns, observe); d.status == Running && d.open > 0
    ensures TakeAll(c, turns + [t], observe) == Take(TakeAll(c, turns, observe), t, observe)
    decreases |turns|
  {
    if turns == [] {
      assert ([] + [t])[1..] == [];
    } else {
      assert (turns + [t])[1..] == turns[1..] + [t];
      TakeAllOneMore(Take(c, turns[0], observe), turns[1..], t, observe);
    }
  }

  /** In any run the consumer is where its loop gets to on the turns it had so far. */
  lemma {:induction false} ConsumerOfRun<S>(states: seq<System<S>>, actions: seq<Action>, observe: (S, string) -> S,
                                            written: Written, initial: S, k: nat)
    requires IsRun(states, actions, observe) && k < |states| && Init(states[0], written, initial)
    ensures states[k].consumer == TakeAll(Start(initial), TurnsOf(actions[..k]), observe)
  {
    hide TakeAll, Take;
    if k == 0 {
      StartOnly(initial, observe);
    } else {
      ConsumerOfRun(states, actions, observe, written, initial, k - 1);
      assert actions[..k][..k - 1] == actions[..k - 1];
      if actions[k - 1].Turn'? {
        TakeAllOneMore(Start(initial), TurnsOf(actions[..k - 1]), actions[k - 1].turn, observe);
      } else {
        assert TurnsOf(actions[..k - 1]) + [] == TurnsOf(actions[..k - 1]);
      }
    }
  }

  lemma StartOnly<S>(initial: S, observe: (S, string) -> S)
    ensures TakeAll(Start(initial), [], observe) == Start(initial)
  {
  }

  // ----- every interleaving -----

  /** The fold of what was kept. */
  ghost predicate Folded<S>(s: System<S>, initial: S, observe: (S, string) -> S) {
    s.consumer.summary == Fold(initial, s.consumer.out, observe)
  }

  lemma StepKeepsFold<S>(s: System<S>, a: Action, initial: S, observe: (S, string) -> S)
    requires Folded(s, initial, observe) && Enabled(s, a)
    ensures Folded(Step(s, a, observe), initial, observe)
  {
    var s' := Step(s, a, observe);
    if s'.consumer.out != s.consumer.out {
      assert s'.consumer.out[..|s'.consumer.out| - 1] == s.consumer.out;
    }
  }

  /** What the readers have to do with the process. */
  ghost predicate Reads<S>(s: System<S>, written: Written) {
    s.out.written == written.out && s.err.written == written.err
  }

  lemma StepKeepsReads<S>(s: System<S>, a: Action, written: Written, observe: (S, string) -> S)
    requires Reads(s, written) && Enabled(s, a)
    ensures Reads(Step(s, a, observe), written)
  {
  }

  lemma {:induction false} RunKeepsInv<S>(states: seq<System<S>>, actions: seq<Action>, observe: (S, string) -> S,
                                          written: Written, initial: S, k: nat)
    returns (closed: set<Source>)
    requires IsRun(states, actions, observe) && k < |states| && Init(states[0], written, initial)
    ensures Inv(states[k], closed) && Folded(states[k], initial, observe) && Reads(states[k], written)
  {
    if k == 0 {
      closed := {};
    } else {
      hide Inv, Folded, Reads, Step, Enabled;
      var before := RunKeepsInv(states, actions, observe, written, initial, k - 1);
      var s, a := states[k - 1], actions[k - 1];
      StepKeepsFold(s, a, initial, observe);
      StepKeepsReads(s, a, written, observe);
      if a.Turn'? {
        closed := TurnKeeps(s, a.turn, before, observe);
      } else {
        closed := before;
        ReaderStepKeeps(s, a, closed, observe);
      }
    }
  }

  /** In every interleaving, at every moment, each captured stream is a prefix, in order, of
      what the process wrote, and the summary is the fold of the captured stdout alone. */
  lemma CapturedIsPrefix<S>(states: seq<System<S>>, actions: seq<Action>, observe: (S, string) -> S,
                            written: Written, initial: S, k: nat)
    requires IsRun(states, actions, observe) && k < |states| && Init(states[0], written, initial)
    ensures states[k].consumer.out <= written.out && states[k].consumer.err <= written.err
    ensures states[k].consumer.summary == Fold(initial, states[k].consumer.out, observe)
  {
    hide IsRun, LinesIn, EndsIn, EndsLast;
    var closed := RunKeepsInv(states, actions, observe, written, initial, k);
  }

  /** Before step k the reader of this stream failed with lines still to read. */
  ghost predicate FailedEarly<S>(states: seq<System<S>>, actions: seq<Action>, src: Source, k: nat)
    requires k < |states| == |actions| + 1
  {
    exists j :: 0 <= j < k && actions[j] == Break(src) && states[j].Of(src).read < |states[j].Of(src).written|
  }

  /** A reader that has ended short of its stream is one that failed early. */
  lemma {:induction false} ShortReaderFailed<S>(states: seq<System<S>>, actions: seq<Action>, observe: (S, string) -> S,
                                                written: Written, initial: S, src: Source, k: nat)
    requires IsRun(states, actions, observe) && k < |states| && Init(states[0], written, initial)
    ensures var r := states[k].Of(src); FailedEarly(states, actions, src, k) <==> r.ended && r.read < |r.written|
  {
    if k > 0 {
      ShortReaderFailed(states, actions, observe, written, initial, src, k - 1);
      var s, a := states[k - 1], actions[k - 1];
      assert Enabled(s, a) && states[k] == Step(s, a, observe);
      assert FailedEarly(states, actions, src, k)
        <==> FailedEarly(states, actions, src, k - 1) || (a == Break(src) && s.Of(src).read < |s.Of(src).written|);
    }
  }

  /** When the pump ends by itself, without timeout or interrupt, a stream is whole if and only if its
      reader did not fail before the last line; nothing in the result tells the two cases apart. The
      summary of a whole stdout does not depend on the interleaving. */
  lemma DrainedIsComplete<S>(states: seq<System<S>>, actions: seq<Action>, observe: (S, string) -> S,
                             written: Written, initial: S, k: nat)
    requires IsRun(states, actions, observe) && k < |states| && Init(states[0], written, initial)
    requires states[k].consumer.status == Drained
    ensures states[k].consumer.out == written.out <==> !FailedEarly(states, actions, Out, k)
    ensures states[k].consumer.err == written.err <==> !FailedEarly(states, actions, Err, k)
    ensures !FailedEarly(states, actions, Out, k) ==> states[k].consumer.summary == Fold(initial, written.out, observe)
  {
    hide IsRun, EndsLast, FailedEarly;
    var closed := RunKeepsInv(states, actions, observe, written, initial, k);
    BothClosed(closed);
    ShortReaderFailed(states, actions, observe, written, initial, Out, k);
    ShortReaderFailed(states, actions, observe, written, initial, Err, k);
  }

  /** A reader that fails at once, as on a byte that does not decode: the pump drains with nothing. */
  lemma FailureIsSilent() returns (states: seq<System<int>>, actions: seq<Action>)
    ensures var observe := (n: int, line: string) => n + 1;
            IsRun(states, actions, observe) && Init(states[0], Written(["x"], []), 0)
            && |states| == 5 && states[4].consumer == Consumer(0, [], [], 0, Drained)
  {
    var observe := (n: int, line: string) => n + 1;
    actions := [Break(Out), Finish(Err), Turn'(Got(End(Out))), Turn'(Got(End(Err)))];
    var s0 := System(Reader(["x"], 0, false), Reader([], 0, false), [], Start(0));
    var s1 := Step(s0, actions[0], observe);
    var s2 := Step(s1, actions[1], observe);
    assert s2.queue == [End(Out), End(Err)];
    var s3 := Step(s2, actions[2], observe);
    assert s3.queue == [End(Err)];
    var s4 := Step(s3, actions[3], observe);
    states := [s0, s1, s2, s3, s4];
  }

  lemma BothClosed(closed: set<Source>)
    requires |closed| == 2
    ensures Out in closed && Err in closed
  {
    var a :| a in closed;
    assert |closed - {a}| == 1;
    var b :| b in closed - {a};
    assert a != b && a in closed && b in closed;
  }
}
