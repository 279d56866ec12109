/** The resumable execution of a validation matrix, src/claim_plane/validation.py: phases
    stored step by step, results, and what a crash between two stores leaves behind. */
module Execution {
  import opened Wrappers

  datatype Phase =
    | AgentRunning | AgentInterrupted | AcceptancePending | AcceptanceRunning | Interrupted | RetryableError | Completed

  /** `VALIDATION_RESUMABLE_PHASES` */
  predicate Resumable(p: Phase) {
    p == AcceptancePending || p == AcceptanceRunning || p == Interrupted || p == RetryableError
  }

  /** Acceptance classifications. */
  datatype Verdict =
    | Pass | TestFailed | Contaminated | DependencyInstallFailed | OfficialTestConflict | WorkspaceSafetyFailed
    | EvaluatorError | EvaluatorIncomplete | Timeout | OperatorInterrupt

  /** What disk knows about one plan cell; `agentRuns` counts the starts of the agent. */
  datatype Cell = Cell(workspace: bool, candidate: bool, phase: Option<Phase>, latest: Option<Verdict>,
                       result: Option<Verdict>, agentRuns: nat)

  predicate CanResume(c: Cell) { c.phase.Some? && Resumable(c.phase.value) }

  /** A candidate from an earlier runner, without phase metadata. */
  predicate Preserved(c: Cell) { c.phase.None? && c.workspace && c.candidate }

  // ----- what the world decides -----

  datatype Preparing = Kept | Recreated | PrepareFailed(workspace: bool) | PrepareRefused

  datatype AgentEnd =
    | EnvironmentFailed | OperatorStopped(candidate: bool) | Lost(candidate: bool)
    | Done(candidate: bool, contaminated: bool)

  datatype Accepting = NoVerdict | Judged(verdict: Verdict)

  datatype World = World(preparing: Preparing, dryRun: bool, agent: AgentEnd, accepting: Accepting)

  // ----- one call, as the cells it stores one after the other -----

  function PhaseOf(v: Verdict): Phase {
    if v == OperatorInterrupt then Interrupted
    else if v == Pass || v == TestFailed then Completed
    else RetryableError
  }

  function Last(states: seq<Cell>): Cell
    requires states != []
  {
    states[|states| - 1]
  }

  /** `_run_acceptance_for_execution`: the result is written after the phase COMPLETED. */
  function AcceptanceStates(c: Cell, a: Accepting): (r: seq<Cell>)
    ensures r != []
  {
    var running := c.(phase := Some(AcceptanceRunning));
    if a.NoVerdict? then [running]
    else
      var judged := running.(latest := Some(a.verdict));
      var phased := judged.(phase := Some(PhaseOf(a.verdict)));
      if PhaseOf(a.verdict) != Completed then [running, judged, phased]
      else [running, judged, phased, phased.(result := Some(a.verdict))]
  }

  /** `resume_validation_execution`; no stores when it is refused. */
  function ResumeStates(c: Cell, a: Accepting): seq<Cell> {
    if c.phase.None? then
      if !(c.workspace && c.candidate) then []
      else
        var pending := c.(phase := Some(AcceptancePending));
        [pending] + AcceptanceStates(pending, a)
    else if !Resumable(c.phase.value) then []
    else AcceptanceStates(c, a)
  }

  function Prepared(c: Cell, p: Preparing): Cell {
    var blank := c.(workspace := true, candidate := false, phase := None, latest := None);
    match p
    case Kept => if c.workspace then c else blank
    case Recreated => blank
    case PrepareFailed(left) => blank.(workspace := left)
    case PrepareRefused => c
  }

  /** `run_validation_execution` without --force-prepare. */
  function RunStates(c: Cell, w: World): seq<Cell> {
    if Preserved(c) then []
    else if CanResume(c) then ResumeStates(c, w.accepting)
    else
      var ready := Prepared(c, w.preparing);
      if w.preparing.PrepareFailed? || w.preparing.PrepareRefused? || w.dryRun || w.agent.EnvironmentFailed?
        then [ready]
      else
        var running := ready.(phase := Some(AgentRunning), agentRuns := ready.agentRuns + 1);
        [ready, running] + AgentStates(running, w)
  }

  /** What is stored once the agent is gone. */
  function AgentStates(running: Cell, w: World): (r: seq<Cell>)
    requires !w.agent.EnvironmentFailed?
    ensures r != []
  {
    var ended := running.(candidate := w.agent.candidate);
    match w.agent
    case OperatorStopped(_) => [ended.(phase := Some(AgentInterrupted))]
    case Lost(_) => [ended]
    case Done(_, contaminated) =>
      if contaminated then
        var found := ended.(latest := Some(Contaminated));
        var phased := found.(phase := Some(Completed));
        [ended, found, phased, phased.(result := Some(Contaminated))]
      else
        var pending := ended.(phase := Some(AcceptancePending));
        [ended, pending] + AcceptanceStates(pending, w.accepting)
  }

  // ----- the matrix -----

  /** `next_validation_execution`: the first cell without a result, or the length. */
  function NextCell(cells: seq<Cell>): (i: nat)
    ensures i <= |cells| && (i < |cells| ==> cells[i].result.None?)
    ensures forall j :: 0 <= j < i ==> cells[j].result.Some?
  {
    if cells == [] || cells[0].result.None? then 0 else 1 + NextCell(cells[1..])
  }

  /** `_resumable_entry` */
  function ResumableCell(cells: seq<Cell>): (i: nat)
    ensures i <= |cells|
    ensures i < |cells| ==> cells[i].result.None? && (CanResume(cells[i]) || Preserved(cells[i]))
  {
    if cells == [] || (cells[0].result.None? && (CanResume(cells[0]) || Preserved(cells[0]))) then 0
    else 1 + ResumableCell(cells[1..])
  }

  /** A run or a resume of the next cell, or of one chosen by its id. */
  datatype Call = RunNext | RunAt(i: nat) | ResumeNext | ResumeAt(i: nat) {
    predicate Runs() { RunNext? || RunAt? }
  }

  /** The cell a call works on; the length when there is none. */
  function Target(cells: seq<Cell>, call: Call): nat {
    match call
    case RunNext => NextCell(cells)
    case RunAt(i) => i
    case ResumeNext => ResumableCell(cells)
    case ResumeAt(i) => i
  }

  function CallStates(cells: seq<Cell>, call: Call, w: World): seq<Cell> {
    var i := Target(cells, call);
    if i >= |cells| then [] else if call.Runs() then RunStates(cells[i], w) else ResumeStates(cells[i], w.accepting)
  }

  /** The class that holds the stored cells; each store is one write to disk. */
  class Matrix {
    var cells: seq<Cell>
    ghost var log: seq<Cell>

    constructor (initial: seq<Cell>)
      ensures cells == initial && log == []
    {
      cells, log := initial, [];
    }

    /** `_store_execution_metadata`, and the writes of verdicts and results. */
    method Store(i: nat, c: Cell)
      requires i < |cells|
      modifies this
      ensures cells == old(cells)[i := c] && log == old(log) + [c]
    {
      cells := cells[i := c];
      log := log + [c];
    }

    method RunAcceptance(i: nat, a: Accepting)
      requires i < |cells|
      modifies this
      ensures var states := AcceptanceStates(old(cells)[i], a);
              log == old(log) + states && cells == old(cells)[i := Last(states)]
    {
      Store(i, cells[i].(phase := Some(AcceptanceRunning)));
      if a.NoVerdict? { return; }
      Store(i, cells[i].(latest := Some(a.verdict)));
      var phase := PhaseOf(a.verdict);
      Store(i, cells[i].(phase := Some(phase)));
      if phase != Completed { return; }
      Store(i, cells[i].(result := cells[i].latest));
    }

    method Resume(i: nat, a: Accepting) returns (refused: bool)
      requires i < |cells|
      modifies this
      ensures var states := ResumeStates(old(cells)[i], a);
              && refused == (states == []) && log == old(log) + states
              && cells == (if states == [] then old(cells) else old(cells)[i := Last(states)])
    {
      if cells[i].phase.None? {
        if !(cells[i].workspace && cells[i].candidate) { return true; }
        Store(i, cells[i].(phase := Some(AcceptancePending)));
      } else if !Resumable(cells[i].phase.value) {
        return true;
      }
      RunAcceptance(i, a);
      refused := false;
    }

    /** `run_validation_execution` on a cell. */
    method RunCell(i: nat, w: World) returns (refused: bool)
      requires i < |cells|
      modifies this
      ensures var states := RunStates(old(cells)[i], w);
              && refused == (states == []) && log == old(log) + states
              && cells == (if states == [] then old(cells) else old(cells)[i := Last(states)])
    {
      hide ResumeStates, AgentStates, Prepared, Preserved, CanResume;
      if Preserved(cells[i]) { return true; }
      if CanResume(cells[i]) {
        refused := Resume(i, w.accepting);
        return;
      }
      refused := false;
      Store(i, Prepared(cells[i], w.preparing));
      if w.preparing.PrepareFailed? || w.preparing.PrepareRefused? || w.dryRun || w.agent.EnvironmentFailed? { return; }
      Store(i, cells[i].(phase := Some(AgentRunning), agentRuns := cells[i].agentRuns + 1));
      CollectAgent(i, w);
    }

    /** The same without an execution id. */
    method RunNextCell(w: World) returns (refused: bool)
      modifies this
      ensures var i, states := NextCell(old(cells)), CallStates(old(cells), RunNext, w);
              && refused == (states == []) && log == old(log) + states
              && cells == (if states == [] then old(cells) else old(cells)[i := Last(states)])
    {
      hide RunStates, NextCell;
      var i := NextCell(cells);
      if i == |cells| { return true; }
      refused := RunCell(i, w);
    }

    /** The part of `run_validation_execution` after the agent has been started. */
    method CollectAgent(i: nat, w: World)
      requires i < |cells| && !w.agent.EnvironmentFailed?
      modifies this
      ensures var states := AgentStates(old(cells)[i], w);
              log == old(log) + states && cells == old(cells)[i := Last(states)]
    {
      hide AcceptanceStates;
      match w.agent {
        case OperatorStopped(candidate) =>
          Store(i, cells[i].(candidate := candidate, phase := Some(AgentInterrupted)));
        case Lost(candidate) =>
          Store(i, cells[i].(candidate := candidate));
        case Done(candidate, contaminated) =>
          Store(i, cells[i].(candidate := candidate));
          if contaminated {
            Store(i, cells[i].(latest := Some(Contaminated)));
            Store(i, cells[i].(phase := Some(Completed)));
            Store(i, cells[i].(result := cells[i].latest));
          } else {
            Store(i, cells[i].(phase := Some(AcceptancePending)));
            RunAcceptance(i, w.accepting);
          }
      }
    }
  }

  // ----- every run, crashes included -----

  /** One call that survives for its first `stores` stores. */
  datatype Move = Move(call: Call, world: World, stores: nat)

  predicate Possible(cells: seq<Cell>, m: Move) { m.stores <= |CallStates(cells, m.call, m.world)| }

  predicate Uncrashed(cells: seq<Cell>, m: Move) { m.stores == |CallStates(cells, m.call, m.world)| }

  function After(cells: seq<Cell>, m: Move): (r: seq<Cell>)
    requires Possible(cells, m)
    ensures |r| == |cells|
  {
    var states := CallStates(cells, m.call, m.world);
    if m.stores == 0 then cells else cells[Target(cells, m.call) := states[m.stores - 1]]
  }

  /** A result is there only for a completed cell judged PASS, TEST_FAILED or CONTAMINATED,
      and it records that judgement. */
  predicate Sound(c: Cell) {
    c.result.Some? ==>
      c.phase == Some(Completed) && c.latest == c.result && c.result.value in {Pass, TestFailed, Contaminated}
  }

  ghost predicate AllSound(cells: seq<Cell>) { forall i :: 0 <= i < |cells| ==> Sound(cells[i]) }

  /** A run by id that leaves a recorded cell as it is: its workspace is refused, or kept and not used. */
  predicate LeavesAlone(c: Cell, w: World) {
    w.preparing == PrepareRefused || (w.preparing == Kept && c.workspace && (w.dryRun || w.agent.EnvironmentFailed?))
  }

  /** Recorded cells are not run again, or are left alone. Every call but a run by id is admissible. */
  predicate Admissible(cells: seq<Cell>, call: Call, w: World) {
    call.RunAt? && call.i < |cells| && cells[call.i].result.Some? ==> LeavesAlone(cells[call.i], w)
  }

  lemma StatesAreSound(cells: seq<Cell>, call: Call, w: World, k: nat)
    requires AllSound(cells) && Admissible(cells, call, w) && k < |CallStates(cells, call, w)|
    ensures var i := Target(cells, call);
            && i < |cells| && Sound(CallStates(cells, call, w)[k])
            && (cells[i].result.Some? ==> CallStates(cells, call, w)[k] == cells[i])
  {
    hide RunStates, ResumeStates;
    var c := cells[Target(cells, call)];
    assert Sound(c);
    if !call.Runs() { ResumeIsSoundFor(c, w.accepting, k); }
    else if c.result.Some? { LeftAlone(c, w); }
    else { RunIsSoundFor(c, w, k); }
  }

  lemma LeftAlone(c: Cell, w: World)
    requires Sound(c) && c.result.Some? && LeavesAlone(c, w)
    ensures RunStates(c, w) == [c]
  {
  }

  lemma AcceptanceIsSoundFor(c: Cell, a: Accepting, k: nat)
    requires c.result.None? && k < |AcceptanceStates(c, a)|
    ensures Sound(AcceptanceStates(c, a)[k])
  {
  }

  lemma ResumeIsSoundFor(c: Cell, a: Accepting, k: nat)
    requires Sound(c) && k < |ResumeStates(c, a)|
    ensures c.result.None? && Sound(ResumeStates(c, a)[k])
  {
    hide AcceptanceStates;
    if c.phase.Some? { AcceptanceIsSoundFor(c, a, k); }
    else if k > 0 { AcceptanceIsSoundFor(c.(phase := Some(AcceptancePending)), a, k - 1); }
  }

  lemma RunIsSoundFor(c: Cell, w: World, k: nat)
    requires c.result.None? && k < |RunStates(c, w)|
    ensures Sound(RunStates(c, w)[k])
  {
    hide ResumeStates, AgentStates;
    if CanResume(c) {
      ResumeIsSoundFor(c, w.accepting, k);
    } else if k >= 2 {
      var ready := Prepared(c, w.preparing);
      AgentIsSoundFor(ready.(phase := Some(AgentRunning), agentRuns := ready.agentRuns + 1), w, k - 2);
    }
  }

  lemma AgentIsSoundFor(c: Cell, w: World, k: nat)
    requires c.result.None? && !w.agent.EnvironmentFailed? && k < |AgentStates(c, w)|
    ensures Sound(AgentStates(c, w)[k])
  {
    hide AcceptanceStates;
    if w.agent.Done? && !w.agent.contaminated && k >= 2 {
      AcceptanceIsSoundFor(c.(candidate := w.agent.candidate, phase := Some(AcceptancePending)), w.accepting, k - 2);
    }
  }

  /** Pending cells are those without a result. */
  function Pending(cells: seq<Cell>): nat {
    if cells == [] then 0 else (if cells[0].result.None? then 1 else 0) + Pending(cells[1..])
  }

  lemma {:induction false} PendingUpdate(cells: seq<Cell>, i: nat, c: Cell)
    requires i < |cells|
    ensures Pending(cells[i := c]) + (if cells[i].result.None? then 1 else 0)
         == Pending(cells) + (if c.result.None? then 1 else 0)
  {
    if i > 0 {
      PendingUpdate(cells[1..], i - 1, c);
      assert cells[i := c][1..] == cells[1..][i - 1 := c];
    } else {
      assert cells[0 := c][1..] == cells[1..];
    }
  }

  /** Every move keeps soundness, crash or not; the pending count drops by one exactly when
      the move stored a result, and never rises. Only the cell called for changes. */
  lemma MoveIsSound(cells: seq<Cell>, m: Move)
    requires AllSound(cells) && Possible(cells, m) && Admissible(cells, m.call, m.world)
    ensures AllSound(After(cells, m))
    ensures var i := Target(cells, m.call);
            var recorded := m.stores > 0 && cells[i].result.None? && After(cells, m)[i].result.Some?;
            Pending(After(cells, m)) == Pending(cells) - (if recorded then 1 else 0)
  {
    if m.stores > 0 {
      StatesAreSound(cells, m.call, m.world, m.stores - 1);
      PendingUpdate(cells, Target(cells, m.call), After(cells, m)[Target(cells, m.call)]);
    }
  }

  /** A sequence of calls that runs no recorded cell again without leaving it alone. */
  ghost predicate IsRun(history: seq<seq<Cell>>, moves: seq<Move>) {
    && |history| == |moves| + 1
    && forall k :: 0 <= k < |moves| ==>
         && Possible(history[k], moves[k]) && Admissible(history[k], moves[k].call, moves[k].world)
         && history[k + 1] == After(history[k], moves[k])
  }

  lemma {:induction false} RunIsSound(history: seq<seq<Cell>>, moves: seq<Move>, k: nat)
    requires IsRun(history, moves) && k < |history| && AllSound(history[0])
    ensures AllSound(history[k]) && Pending(history[k]) <= Pending(history[0]) && |history[k]| == |history[0]|
  {
    if k > 0 {
      RunIsSound(history, moves, k - 1);
      MoveIsSound(history[k - 1], moves[k - 1]);
    }
  }

  // ----- finished work -----

  /** What the agent did is not repeated: it waits for acceptance or is recorded. */
  predicate Recoverable(c: Cell) { CanResume(c) || Preserved(c) || c.result.Some? }

  predicate Stopped(w: World) {
    w.preparing.PrepareFailed? || w.preparing.PrepareRefused? || w.dryRun || w.agent.EnvironmentFailed?
  }

  /** A run of this cell starts the agent. */
  predicate StartsAgent(c: Cell, w: World) { !Preserved(c) && !CanResume(c) && !Stopped(w) }

  /** A pending cell is recoverable exactly when no run of it starts the agent again. */
  lemma RecoverableMeans(c: Cell)
    requires c.result.None?
    ensures Recoverable(c)
        <==> forall w, k :: 0 <= k < |RunStates(c, w)| ==> RunStates(c, w)[k].agentRuns == c.agentRuns
    ensures !Recoverable(c) ==> forall a :: ResumeStates(c, a) == []
  {
    if !Recoverable(c) {
      var w := World(Recreated, false, Lost(false), NoVerdict);
      assert RunStates(c, w)[1].agentRuns == c.agentRuns + 1;
    }
  }

  /** The cell of a move has finished agent work: it had it before, or the agent came back during
      the move, its third store. An operator's interrupt is no finish. */
  predicate AgentFinished(c: Cell, m: Move) {
    CanResume(c) || Preserved(c)
    || (m.call.Runs() && StartsAgent(c, m.world) && !m.world.agent.OperatorStopped? && m.stores >= 3)
  }

  predicate Records(a: Accepting) { a == Judged(Pass) || a == Judged(TestFailed) }

  /** The stores after which a death loses finished work. In a run that starts the agent: from the
      agent's end up to the store of ACCEPTANCE_PENDING or of the result of a contaminated cell; and
      in every call the store of COMPLETED. */
  predicate InWindow(c: Cell, m: Move) {
    if m.call.Runs() && StartsAgent(c, m.world) then
      match m.world.agent
      case Lost(_) => m.stores == 3
      case Done(_, contaminated) =>
        if contaminated then 3 <= m.stores <= 5
        else m.stores == 3 || (m.stores == 7 && Records(m.world.accepting))
      case _ => false
    else m.stores == (if c.phase.None? then 4 else 3) && Records(m.world.accepting)
  }

  /** Every move on every pending cell: finished work is lost if and only if the call dies in one of
      the windows, which its world and its number of stores tell. */
  lemma WorkIsLostExactlyInWindow(cells: seq<Cell>, m: Move)
    requires Possible(cells, m)
    requires var i := Target(cells, m.call); i < |cells| && cells[i].result.None? && AgentFinished(cells[i], m)
    ensures var i := Target(cells, m.call); Recoverable(After(cells, m)[i]) <==> !InWindow(cells[i], m)
  {
    hide AcceptanceStates;
    var c, w := cells[Target(cells, m.call)], m.world;
    if m.call.Runs() && StartsAgent(c, w) {
      var ready := Prepared(c, w.preparing);
      var running := ready.(phase := Some(AgentRunning), agentRuns := ready.agentRuns + 1);
      assert CallStates(cells, m.call, w) == [ready, running] + AgentStates(running, w);
      if w.agent.Done? && !w.agent.contaminated && m.stores >= 5 {
        var pending := running.(candidate := w.agent.candidate, phase := Some(AcceptancePending));
        assert CallStates(cells, m.call, w)[m.stores - 1] == AcceptanceStates(pending, w.accepting)[m.stores - 5];
        AcceptanceLoses(pending, w.accepting, m.stores - 4);
      }
    } else if c.phase.None? {
      if m.stores >= 2 { AcceptanceLoses(c.(phase := Some(AcceptancePending)), w.accepting, m.stores - 1); }
    } else if m.stores >= 1 {
      AcceptanceLoses(c, w.accepting, m.stores);
    }
  }

  lemma AcceptanceLoses(c: Cell, a: Accepting, stores: nat)
    requires c.result.None? && 1 <= stores <= |AcceptanceStates(c, a)|
    ensures Recoverable(AcceptanceStates(c, a)[stores - 1]) <==> !(stores == 3 && Records(a))
  {
  }

  /** The move works on another cell or does not die in a window. */
  predicate Spares(cells: seq<Cell>, m: Move, i: nat) {
    i < |cells| && (Target(cells, m.call) == i ==> !InWindow(cells[i], m))
  }

  lemma MoveKeepsAgentWork(cells: seq<Cell>, m: Move, i: nat)
    requires AllSound(cells) && Possible(cells, m) && Admissible(cells, m.call, m.world)
    requires i < |cells| && Recoverable(cells[i])
    ensures Spares(cells, m, i) ==> Recoverable(After(cells, m)[i])
    ensures After(cells, m)[i].agentRuns == cells[i].agentRuns
  {
    hide InWindow;
    if m.stores > 0 && Target(cells, m.call) == i {
      StatesAreSound(cells, m.call, m.world, m.stores - 1);
      if cells[i].result.None? {
        WorkIsLostExactlyInWindow(cells, m);
        if m.call.Runs() {
          RecoverableMeans(cells[i]);
        } else {
          ResumeKeepsCount(cells[i], m.world.accepting, m.stores - 1);
        }
      }
    }
  }

  lemma ResumeKeepsCount(c: Cell, a: Accepting, k: nat)
    requires k < |ResumeStates(c, a)|
    ensures ResumeStates(c, a)[k].agentRuns == c.agentRuns
  {
  }

  /** In every sequence of calls, dying anywhere but in the windows of this cell, whatever the
      verdicts: once the agent's work is recoverable, the agent is never started on that cell again. */
  lemma {:induction false} AgentRunsOnce(history: seq<seq<Cell>>, moves: seq<Move>, from: nat, k: nat, i: nat)
    requires IsRun(history, moves) && from <= k < |history| && AllSound(history[0]) && i < |history[0]|
    requires forall j :: from <= j < k ==> Spares(history[j], moves[j], i)
    requires |history[from]| == |history[0]| && Recoverable(history[from][i])
    ensures |history[k]| == |history[0]|
    ensures Recoverable(history[k][i]) && history[k][i].agentRuns == history[from][i].agentRuns
    decreases k
  {
    hide Spares, Recoverable, AllSound, After, Possible, Pending;
    RunIsSound(history, moves, k);
    if k > from {
      RunIsSound(history, moves, k - 1);
      AgentRunsOnce(history, moves, from, k - 1, i);
      MoveKeepsAgentWork(history[k - 1], moves[k - 1], i);
    }
  }

  /** A death in the first window: the candidate is there, nothing resumes it, and the next run starts
      the agent a second time. */
  lemma FinishedAgentRunsAgain(w: World)
    requires w.preparing == Recreated && !w.dryRun && w.agent == Done(true, false)
    ensures var blank := Cell(false, false, None, None, None, 0);
            var m := Move(RunNext, w, 3);
            Possible([blank], m) &&
            var c := After([blank], m)[0];
            c.candidate && c.agentRuns == 1 && ResumableCell([c]) == 1 && ResumeStates(c, w.accepting) == []
            && |RunStates(c, w)| > 1 && RunStates(c, w)[1].agentRuns == 2
  {
    var blank := Cell(false, false, None, None, None, 0);
    var m := Move(RunNext, w, 3);
    assert NextCell([blank]) == 0;
    var c := After([blank], m)[0];
    assert [c][1..] == [];
  }

  /** On a recorded cell a run by id is sound exactly when it leaves it alone. */
  lemma RerunOfRecordedCell(c: Cell, w: World)
    requires Sound(c) && c.result.Some?
    ensures (forall k :: 0 <= k < |RunStates(c, w)| ==> Sound(RunStates(c, w)[k]))
            <==> LeavesAlone(c, w)
  {
    var states := RunStates(c, w);
    assert states[0] == Prepared(c, w.preparing);
    if !Stopped(w) { assert states[1].phase == Some(AgentRunning) && states[1].result == c.result; }
  }

  // ----- no cell is stuck -----

  const SMOOTH := World(Kept, false, Done(true, false), Judged(Pass))

  /** Whatever happened before, one run or one resume of the next cell can record it. */
  lemma NextCellCanFinish(cells: seq<Cell>) returns (m: Move)
    requires AllSound(cells) && Pending(cells) > 0
    ensures Uncrashed(cells, m) && Pending(After(cells, m)) == Pending(cells) - 1
  {
    var i := NextCell(cells);
    if i == |cells| { NothingPending(cells); }
    var call := if Preserved(cells[i]) then ResumeAt(i) else RunNext;
    m := Move(call, SMOOTH, |CallStates(cells, call, SMOOTH)|);
    MoveIsSound(cells, m);
  }

  lemma {:induction false} NothingPending(cells: seq<Cell>)
    requires forall i :: 0 <= i < |cells| ==> cells[i].result.Some?
    ensures Pending(cells) == 0
  {
    if cells != [] { NothingPending(cells[1..]); }
  }
}
