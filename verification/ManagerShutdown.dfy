/** What is left after `StopAll`, and how long it can take (internal/daemon/daemon.go, internal/tunnel/manager.go). */
module ManagerShutdown {
  import opened Prelude
  import opened ManagerMemory
  import opened ManagerMachine
  import opened ManagerInvariant
  import opened ManagerTheorems
  import ManagerLifecycle
  import TunnelRun

  // -------------------------------------------------------------- every run is cancelled

  /** From `j` on, no `Start` gets past its first region. */
  ghost predicate NoNewRuns(states: seq<Machine>, steps: seq<Step>, j: nat, k: nat) {
    && k <= |steps| && k <= |states|
    && forall i | j <= i < k && steps[i].StartBegins? ::
         Shape(states[i]) && StartError(states[i].mem, steps[i].name) != None
  }

  ghost predicate AllCancelled(s: Machine) {
    |s.mem.cancelled| == |s.runs| && forall r | 0 <= r < |s.runs| && Unfinished(s.runs[r]) :: s.mem.cancelled[r]
  }

  lemma StepKeepsAllCancelled(s: Machine, step: Step)
    requires Shape(s) && Enabled(s, step) && Runs(s.runs, s.mem.cancelled) && AllCancelled(s)
    requires step.StartBegins? ==> StartError(s.mem, step.name) != None
    ensures AllCancelled(Apply(s, step))
  {
    NoRunIsAdded(s, step);
    forall r | 0 <= r < |s.runs| && Unfinished(Apply(s, step).runs[r])
      ensures Apply(s, step).mem.cancelled[r]
    {
      NothingIsUncancelled(s, step, r);
      NoRunIsRevived(s, step, r);
    }
  }

  lemma NoRunIsAdded(s: Machine, step: Step)
    requires Shape(s) && Enabled(s, step)
    requires step.StartBegins? ==> StartError(s.mem, step.name) != None
    ensures |Apply(s, step).runs| == |s.runs| == |Apply(s, step).mem.cancelled|
  {
  }

  lemma NoRunIsRevived(s: Machine, step: Step, r: nat)
    requires Shape(s) && Enabled(s, step) && r < |s.runs| <= |Apply(s, step).runs| && RunOk(s.runs[r], s.mem.cancelled[r])
    ensures Unfinished(Apply(s, step).runs[r]) ==> Unfinished(s.runs[r])
  {
  }

  lemma NothingIsUncancelled(s: Machine, step: Step, r: nat)
    requires Shape(s) && Enabled(s, step) && r < |s.mem.cancelled| <= |Apply(s, step).mem.cancelled|
    ensures s.mem.cancelled[r] ==> Apply(s, step).mem.cancelled[r]
  {
    if !step.StopCalled? && !step.StopAllCalled? {
      OthersKeepContexts(s, step, r);
    }
  }

  lemma CancelledByStopAll(cfg: seq<TunnelConfig>, s: Machine)
    requires Reachable(cfg, s) && Shape(s)
    ensures AllCancelled(Apply(s, StopAllCalled))
  {
    forall r | 0 <= r < |s.runs| && Unfinished(s.runs[r])
      ensures Apply(s, StopAllCalled).mem.cancelled[r]
    {
      StopAllCancelsAllRuns(cfg, s, r);
    }
  }

  lemma CancelledStays(cfg: seq<TunnelConfig>, states: seq<Machine>, steps: seq<Step>, k: nat)
    requires Execution(cfg, states, steps) && k < |steps| && AllCancelled(states[k])
    requires Shape(states[k]) && steps[k].StartBegins? ==> StartError(states[k].mem, steps[k].name) != None
    ensures AllCancelled(states[k + 1])
  {
    Safety(cfg, states, steps, k);
    StepKeepsAllCancelled(states[k], steps[k]);
  }

  lemma {:induction false} CancelledAfterStopAll(cfg: seq<TunnelConfig>, states: seq<Machine>, steps: seq<Step>, j: nat, k: nat)
    requires Execution(cfg, states, steps) && j < k < |states| && steps[j] == StopAllCalled && NoNewRuns(states, steps, j, k)
    ensures AllCancelled(states[k])
    decreases k
  {
    if j + 1 == k {
      ManagerLifecycle.PrefixReachable(cfg, states, steps, j);
      CancelledByStopAll(cfg, states[j]);
    } else {
      CancelledAfterStopAll(cfg, states, steps, j, k - 1);
      CancelledStays(cfg, states, steps, k - 1);
    }
  }

  /** The steps a run owes: its callbacks return, its worker finishes, and its tunnel makes the moves owed to it. */
  predicate OwedStep(s: Machine, step: Step) {
    match step
    case TunnelMoves(r, move) => r < |s.runs| && TunnelRun.Owed(s.runs[r].tunnel, move)
    case _ => OfARun(step)
  }

  /**
   * No goroutine of a run is ever stuck in the manager: a caller in a callback or before its last
   * region can go on, so can a worker in its callback, and a worker whose tunnel has returned can
   * report it.
   */
  lemma GoroutinesCanMove(s: Machine, cfg: seq<TunnelConfig>, r: nat)
    requires Inv(s, cfg) && Shape(s) && r < |s.runs|
    ensures s.runs[r].caller == Notifying ==> Enabled(s, ConnectingCallback(r))
    ensures s.runs[r].caller == Sleeping ==> Enabled(s, StartPromotes(r))
    ensures s.runs[r].caller == Announcing ==> Enabled(s, ConnectedCallback(r))
    ensures s.runs[r].worker == Unspawned ==> Enabled(s, ConnectingCallback(r))
    ensures s.runs[r].worker == Working && s.runs[r].tunnel.phase.Returned? ==> Enabled(s, WorkerFinishes(r))
    ensures s.runs[r].worker.Reporting? ==> Enabled(s, EndCallback(r))
  {
    assert RunOk(s.runs[r], s.mem.cancelled[r]);
  }

  /** An unfinished run with a cancelled context always has an owed step. */
  lemma CancelledRunHasOwedStep(s: Machine, cfg: seq<TunnelConfig>, r: nat) returns (step: Step)
    requires Inv(s, cfg) && Shape(s) && r < |s.runs| && Unfinished(s.runs[r]) && s.mem.cancelled[r]
    ensures Enabled(s, step) && OwedStep(s, step)
  {
    var run := s.runs[r];
    assert RunOk(run, true);
    if run.worker == Unspawned {
      step := ConnectingCallback(r);
    } else if run.tunnel.phase.Returned? {
      step := WorkerFinishes(r);
    } else {
      var move := TunnelRun.CancelledRunMoves(run.tunnel);
      step := TunnelMoves(r, move);
    }
  }

  /**
   * Shutdown: after `StopAll`, with no further run begun, a schedule to which nothing is owed has
   * ended every run with all its goroutines, every tunnel is idle, every accepted connection is
   * released, and no listener or SSH connection is left open.
   */
  lemma StopAllEndsEverything(cfg: seq<TunnelConfig>, states: seq<Machine>, steps: seq<Step>, j: nat, k: nat)
    requires Execution(cfg, states, steps) && j < k < |states| && steps[j] == StopAllCalled && NoNewRuns(states, steps, j, k)
    requires forall step | Shape(states[k]) && Enabled(states[k], step) :: !OwedStep(states[k], step)
    ensures forall r | 0 <= r < |states[k].runs| :: states[k].runs[r].caller == Gone && states[k].runs[r].worker.Exited?
    ensures forall r | 0 <= r < |states[k].runs| :: states[k].runs[r].tunnel.listener == None && states[k].runs[r].tunnel.ssh == None
    ensures forall o | 0 <= o < |states[k].mem.objs| ::
              !IsActive(states[k].mem.objs[o].status) && states[k].mem.objs[o].cancel == None
    ensures forall r, h | 0 <= r < |states[k].runs| && h in states[k].runs[r].tunnel.handlers :: TunnelRun.Released(h)
  {
    var s := states[k];
    Safety(cfg, states, steps, k);
    CancelledAfterStopAll(cfg, states, steps, j, k);
    forall r | 0 <= r < |s.runs|
      ensures s.runs[r].caller == Gone && s.runs[r].worker.Exited?
      ensures s.runs[r].tunnel.listener == None && s.runs[r].tunnel.ssh == None
    {
      if Unfinished(s.runs[r]) {
        var step := CancelledRunHasOwedStep(s, cfg, r);
        assert false;
      }
      GoroutinesCanMove(s, cfg, r);
      NothingLeftToDo(s, r);
      FinishedRunIsShut(s.runs[r], s.mem.cancelled[r]);
    }
    forall r, h | 0 <= r < |s.runs| && h in s.runs[r].tunnel.handlers
      ensures TunnelRun.Released(h)
    {
      FinishedRunReleased(s.runs[r], s.mem.cancelled[r], h);
    }
  }

  lemma NothingLeftToDo(s: Machine, r: nat)
    requires Shape(s) && r < |s.runs| && !Unfinished(s.runs[r])
    requires forall step | Enabled(s, step) :: !OwedStep(s, step)
    requires s.runs[r].caller == Notifying ==> Enabled(s, ConnectingCallback(r))
    requires s.runs[r].caller == Sleeping ==> Enabled(s, StartPromotes(r))
    requires s.runs[r].caller == Announcing ==> Enabled(s, ConnectedCallback(r))
    requires s.runs[r].worker.Reporting? ==> Enabled(s, EndCallback(r))
    ensures s.runs[r].caller == Gone && s.runs[r].worker.Exited?
  {
    assert Enabled(s, ConnectingCallback(r)) ==> !OwedStep(s, ConnectingCallback(r));
    assert Enabled(s, StartPromotes(r)) ==> !OwedStep(s, StartPromotes(r));
    assert Enabled(s, ConnectedCallback(r)) ==> !OwedStep(s, ConnectedCallback(r));
    assert Enabled(s, EndCallback(r)) ==> !OwedStep(s, EndCallback(r));
  }

  lemma FinishedRunIsShut(run: Run, cancelled: bool)
    requires RunOk(run, cancelled) && !Unfinished(run)
    ensures run.tunnel.listener == None && run.tunnel.ssh == None
  {
    TunnelRun.OpensItsTarget(run.tunnel, cancelled);
  }

  lemma FinishedRunReleased(run: Run, cancelled: bool, h: TunnelRun.Handler)
    requires RunOk(run, cancelled) && !Unfinished(run) && h in run.tunnel.handlers
    ensures TunnelRun.Released(h)
  {
    if run.tunnel.phase == TunnelRun.Returned(TunnelRun.Closed) {
      TunnelRun.ClosedRunReleasesEverything(run.tunnel, cancelled);
    }
  }

  // -------------------------------------------------------------- how long it can take

  /** The tunnel accepts no further connection, whatever its clients do. */
  predicate Sealed(t: TunnelRun.State) {
    t.canceller == TunnelRun.Fired || t.phase == TunnelRun.Draining || t.phase.Returned?
  }

  ghost function SealedRank(t: TunnelRun.State): nat {
    TunnelRun.Rank(t) + if t.canceller == TunnelRun.Fired then 0 else 1
  }

  /** Every step of every goroutine of a sealed tunnel run lowers its rank. */
  lemma SealedRankDrops(t: TunnelRun.State, ctx: bool, move: TunnelRun.Step)
    requires TunnelRun.Inv(t, ctx) && Sealed(t) && TunnelRun.Enabled(t, ctx, move)
    ensures Sealed(TunnelRun.Apply(t, ctx, move)) && SealedRank(TunnelRun.Apply(t, ctx, move)) < SealedRank(t)
  {
    match move
    case Handle(i, step) =>
      var h := t.handlers[i];
      assert h in t.handlers;
      TunnelRun.HandlerRankDrops(h, ctx || t.connCancelled, step);
      SumUpdate(t.handlers, i, TunnelRun.HandlerApply(h, step), TunnelRun.HandlerRank);
    case _ =>
  }

  function CallerRank(c: Caller): nat {
    match c
    case Notifying => 3
    case Sleeping => 2
    case Announcing => 1
    case Gone => 0
  }

  function WorkerRank(w: Worker): nat {
    match w
    case Unspawned => 3
    case Working => 2
    case Reporting(_) => 1
    case Exited(_) => 0
  }

  ghost function RunRank(run: Run): nat {
    CallerRank(run.caller) + WorkerRank(run.worker) + SealedRank(run.tunnel)
  }

  /** No run can accept a connection any more. */
  ghost predicate AllSealed(runs: seq<Run>) {
    forall r | 0 <= r < |runs| && Unfinished(runs[r]) :: Sealed(runs[r].tunnel)
  }

  ghost function Total(runs: seq<Run>): nat {
    Sum(runs, RunRank)
  }

  /** The step belongs to a goroutine of a run. */
  predicate OfARun(step: Step) {
    match step
    case ConnectingCallback(_) => true
    case TunnelMoves(_, _) => true
    case WorkerFinishes(_) => true
    case EndCallback(_) => true
    case StartPromotes(_) => true
    case ConnectedCallback(_) => true
    case _ => false
  }

  /** A step of a run changes only that run, which stays sealed and has less to do. */
  lemma RunStepDrops(s: Machine, step: Step)
    requires Shape(s) && Enabled(s, step) && OfARun(step) && RunOk(s.runs[step.r], s.mem.cancelled[step.r])
    requires Unfinished(s.runs[step.r]) ==> Sealed(s.runs[step.r].tunnel)
    ensures |Apply(s, step).runs| == |s.runs| && Apply(s, step).runs == s.runs[step.r := Apply(s, step).runs[step.r]]
    ensures RunRank(Apply(s, step).runs[step.r]) < RunRank(s.runs[step.r])
    ensures Unfinished(Apply(s, step).runs[step.r]) ==> Sealed(Apply(s, step).runs[step.r].tunnel)
  {
    match step
    case TunnelMoves(r, move) => SealedRankDrops(s.runs[r].tunnel, s.mem.cancelled[r], move);
    case _ =>
  }

  lemma OtherStepsLeaveRuns(s: Machine, step: Step)
    requires Shape(s) && Enabled(s, step) && !OfARun(step)
    requires step.StartBegins? ==> StartError(s.mem, step.name) != None
    ensures Apply(s, step).runs == s.runs
  {
  }

  lemma SealedUpdate(runs: seq<Run>, r: nat, run: Run)
    requires AllSealed(runs) && r < |runs| && (Unfinished(run) ==> Sealed(run.tunnel))
    ensures AllSealed(runs[r := run])
  {
  }

  lemma TotalStep(s: Machine, step: Step)
    requires Shape(s) && Enabled(s, step) && Runs(s.runs, s.mem.cancelled) && AllSealed(s.runs)
    requires step.StartBegins? ==> StartError(s.mem, step.name) != None
    ensures AllSealed(Apply(s, step).runs)
    ensures Total(Apply(s, step).runs) + (if OfARun(step) then 1 else 0) <= Total(s.runs)
  {
    if OfARun(step) {
      RunStepDrops(s, step);
      SumUpdate(s.runs, step.r, Apply(s, step).runs[step.r], RunRank);
      SealedUpdate(s.runs, step.r, Apply(s, step).runs[step.r]);
    } else {
      OtherStepsLeaveRuns(s, step);
    }
  }

  /** How many of the steps from `j` to `k` belong to runs. */
  function RunSteps(steps: seq<Step>, j: nat, k: nat): nat
    requires j <= k <= |steps|
    decreases k
  {
    if j == k then 0 else RunSteps(steps, j, k - 1) + if OfARun(steps[k - 1]) then 1 else 0
  }

  /** The step at `i` keeps the runs sealed and, if it belongs to one, uses up rank. */
  ghost predicate Lowers(states: seq<Machine>, steps: seq<Step>, i: nat)
    requires i < |steps| < |states|
  {
    AllSealed(states[i].runs) ==>
      && AllSealed(states[i + 1].runs)
      && Total(states[i + 1].runs) + (if OfARun(steps[i]) then 1 else 0) <= Total(states[i].runs)
  }

  lemma StepLowers(cfg: seq<TunnelConfig>, states: seq<Machine>, steps: seq<Step>, i: nat)
    requires Execution(cfg, states, steps) && i < |steps|
    requires Shape(states[i]) && steps[i].StartBegins? ==> StartError(states[i].mem, steps[i].name) != None
    ensures Lowers(states, steps, i)
  {
    if AllSealed(states[i].runs) {
      Safety(cfg, states, steps, i);
      TotalStep(states[i], steps[i]);
    }
  }

  lemma {:induction false} LoweringBounds(states: seq<Machine>, steps: seq<Step>, j: nat, k: nat)
    requires j <= k <= |steps| < |states| && AllSealed(states[j].runs)
    requires forall i | j <= i < k :: Lowers(states, steps, i)
    ensures AllSealed(states[k].runs) && RunSteps(steps, j, k) + Total(states[k].runs) <= Total(states[j].runs)
    decreases k
  {
    if j < k {
      LoweringBounds(states, steps, j, k - 1);
      assert Lowers(states, steps, k - 1);
    }
  }

  /**
   * Shutdown is bounded: once no run can accept another connection, and with no further run
   * begun, all goroutines of all runs together take at most as many steps as their total rank,
   * however long and in whatever order everything else goes on.
   */
  lemma ShutdownIsBounded(cfg: seq<TunnelConfig>, states: seq<Machine>, steps: seq<Step>, j: nat, k: nat)
    requires Execution(cfg, states, steps) && j <= k < |states| && AllSealed(states[j].runs) && NoNewRuns(states, steps, j, k)
    ensures AllSealed(states[k].runs) && RunSteps(steps, j, k) + Total(states[k].runs) <= Total(states[j].runs)
  {
    forall i | j <= i < k
      ensures Lowers(states, steps, i)
    {
      StepLowers(cfg, states, steps, i);
    }
    LoweringBounds(states, steps, j, k);
  }
}
