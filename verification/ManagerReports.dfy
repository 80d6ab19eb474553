/**
 * What the manager says about a run and what the run really did (internal/tunnel/manager.go): where
 * its target came from, how it ended, and what status and text its tunnel shows for it.
 */
module ManagerReports {
  import opened Prelude
  import opened ManagerMemory
  import opened ManagerMachine
  import opened ManagerInvariant
  import opened ManagerHistory
  import opened ManagerTheorems
  import opened ManagerLifecycle
  import TunnelRun

  // -------------------------------------------------------------- where a run comes from

  /** What is fixed when a run begins. */
  predicate SameOrigin(run: Run, run': Run) {
    run'.obj == run.obj && run'.name == run.name && run'.tunnel.target == run.tunnel.target && run'.beginHook == run.beginHook
  }

  lemma OriginStays(s: Machine, step: Step, r: nat)
    requires Shape(s) && Enabled(s, step) && r < |s.runs|
    ensures r < |Apply(s, step).runs| && SameOrigin(s.runs[r], Apply(s, step).runs[r])
  {
  }

  /** The run is what the `Start` call in `step`, made in `s`, asked for. */
  ghost predicate BegunBy(s: Machine, step: Step, run: Run) {
    && step.StartBegins? && step.name in s.mem.index && s.mem.index[step.name] == run.obj < |s.mem.objs|
    && run.name == step.name && !IsActive(s.mem.objs[run.obj].status)
    && run.tunnel.target.sshHost == step.sshHost && run.tunnel.target.sshUser == step.sshUser
    && run.tunnel.target.remoteAddr == s.mem.objs[run.obj].config.remote
    && run.tunnel.target.localAddr == s.mem.objs[run.obj].config.local
    && run.beginHook == s.mem.onChange
  }

  lemma NewRunIsBegun(s: Machine, step: Step, r: nat)
    requires Shape(s) && Enabled(s, step) && |s.runs| <= r < |Apply(s, step).runs|
    ensures r == |s.runs| && BegunBy(s, step, Apply(s, step).runs[r])
  {
  }

  /** Every run goes back to one `Start` call: its SSH host and user, and the addresses of the tunnel it found. */
  lemma {:induction false} RunOrigin(cfg: seq<TunnelConfig>, states: seq<Machine>, steps: seq<Step>, k: nat, r: nat) returns (j: nat)
    requires Execution(cfg, states, steps) && k < |states| && r < |states[k].runs|
    ensures j < k && |states[j].runs| == r && BegunBy(states[j], steps[j], states[k].runs[r])
    decreases k
  {
    if k > 0 {
      if r < |states[k - 1].runs| {
        j := RunOrigin(cfg, states, steps, k - 1, r);
        OriginStays(states[k - 1], steps[k - 1], r);
      } else {
        j := k - 1;
        NewRunIsBegun(states[j], steps[j], r);
      }
    }
  }

  /**
   * What a run has open is what its `Start` call and its tunnel say: the SSH connection goes to
   * that call's host as that call's user, the listener is on the tunnel's local address, and every
   * accepted connection is forwarded to the tunnel's remote address; a run that has returned has
   * neither SSH connection nor listener.
   */
  lemma RunServesItsTunnel(cfg: seq<TunnelConfig>, states: seq<Machine>, steps: seq<Step>, k: nat, r: nat) returns (j: nat)
    requires Execution(cfg, states, steps) && k < |states| && r < |states[k].runs|
    ensures j < k && |states[j].runs| == r && steps[j].StartBegins? && steps[j].name == states[k].runs[r].name
    ensures states[k].runs[r].obj < |states[k].mem.objs|
    ensures var tunnel, config := states[k].runs[r].tunnel, states[k].mem.objs[states[k].runs[r].obj].config;
            && config.name == states[k].runs[r].name
            && (tunnel.ssh.Some? ==> tunnel.ssh.value.host == steps[j].sshHost && tunnel.ssh.value.user == steps[j].sshUser)
            && (tunnel.listener.Some? ==> tunnel.listener.value == config.local)
            && (forall h | h in tunnel.handlers :: h.addr == config.remote)
            && (tunnel.phase.Returned? ==> tunnel.ssh == None && tunnel.listener == None)
  {
    j := RunOrigin(cfg, states, steps, k, r);
    Safety(cfg, states, steps, k);
    assert RunOk(states[k].runs[r], states[k].mem.cancelled[r]);
    TunnelRun.OpensItsTarget(states[k].runs[r].tunnel, states[k].mem.cancelled[r]);
  }

  // -------------------------------------------------------------- how a run ends

  lemma EndsOnlyByFinishing(s: Machine, step: Step, r: nat)
    requires Shape(s) && Enabled(s, step) && r < |s.runs| && r < |Apply(s, step).runs| && !Unfinished(Apply(s, step).runs[r])
    requires RunOk(s.runs[r], s.mem.cancelled[r])
    ensures if Unfinished(s.runs[r]) then step == WorkerFinishes(r) && Apply(s, step).runs[r].endHook == s.mem.onChange
              && s.runs[r].tunnel.phase == TunnelRun.Returned(Apply(s, step).runs[r].worker.outcome)
            else Apply(s, step).runs[r].worker.outcome == s.runs[r].worker.outcome && Apply(s, step).runs[r].endHook == s.runs[r].endHook
  {
  }

  lemma RunOkAt(cfg: seq<TunnelConfig>, states: seq<Machine>, steps: seq<Step>, k: nat, r: nat)
    requires Execution(cfg, states, steps) && k < |states| && r < |states[k].runs|
    ensures |states[k].mem.cancelled| == |states[k].runs| && RunOk(states[k].runs[r], states[k].mem.cancelled[r])
  {
    Safety(cfg, states, steps, k);
  }

  /** At step `l` the worker found the tunnel returned with the outcome the run now has, and this callback installed. */
  ghost predicate EndsAt(states: seq<Machine>, steps: seq<Step>, l: nat, r: nat, run: Run) {
    && l < |steps| < |states| && steps[l] == WorkerFinishes(r) && r < |states[l].runs| && !Unfinished(run)
    && states[l].runs[r].tunnel.phase == TunnelRun.Returned(run.worker.outcome)
    && run.endHook == states[l].mem.onChange
  }

  lemma RunEndStep(cfg: seq<TunnelConfig>, states: seq<Machine>, steps: seq<Step>, i: nat, r: nat)
    requires Execution(cfg, states, steps) && i < |steps| && r < |states[i + 1].runs| && !Unfinished(states[i + 1].runs[r])
    ensures r < |states[i].runs|
    ensures var run, run' := states[i].runs[r], states[i + 1].runs[r];
            || EndsAt(states, steps, i, r, run')
            || (!Unfinished(run) && run'.worker.outcome == run.worker.outcome && run'.endHook == run.endHook)
  {
    if r >= |states[i].runs| {
      NewRunIsUnfinished(states[i], steps[i], r);
    } else {
      RunOkAt(cfg, states, steps, i, r);
      EndsOnlyByFinishing(states[i], steps[i], r);
    }
  }

  /** A finished run goes back to the step at which its worker found the tunnel returned, with the callback installed then. */
  lemma {:induction false} RunEnd(cfg: seq<TunnelConfig>, states: seq<Machine>, steps: seq<Step>, k: nat, r: nat) returns (l: nat)
    requires Execution(cfg, states, steps) && k < |states| && r < |states[k].runs| && !Unfinished(states[k].runs[r])
    ensures l < k && EndsAt(states, steps, l, r, states[k].runs[r])
    decreases k
  {
    if k > 0 {
      RunEndStep(cfg, states, steps, k - 1, r);
      if EndsAt(states, steps, k - 1, r, states[k].runs[r]) {
        l := k - 1;
      } else {
        l := RunEnd(cfg, states, steps, k - 1, r);
      }
    }
  }

  lemma NewRunIsUnfinished(s: Machine, step: Step, r: nat)
    requires Shape(s) && Enabled(s, step) && |s.runs| <= r < |Apply(s, step).runs|
    ensures Unfinished(Apply(s, step).runs[r]) && Apply(s, step).runs[r].promoted == None
    ensures !Apply(s, step).runs[r].tunnel.phase.Returned?
  {
  }

  lemma PromotesOnlyByPromoting(s: Machine, step: Step, r: nat)
    requires Shape(s) && Enabled(s, step) && r < |s.runs| && r < |Apply(s, step).runs| && Apply(s, step).runs[r].promoted.Some?
    ensures Apply(s, step).runs[r].promoted != s.runs[r].promoted ==>
              && step == StartPromotes(r) && s.mem.objs[s.runs[r].obj].status == Connecting
              && Apply(s, step).runs[r].promoted.value == s.mem.onChange
  {
  }

  /** A run that was promoted was found connecting by the last region of its `Start`, with the callback installed then. */
  lemma {:induction false} RunPromotion(cfg: seq<TunnelConfig>, states: seq<Machine>, steps: seq<Step>, k: nat, r: nat) returns (l: nat)
    requires Execution(cfg, states, steps) && k < |states| && r < |states[k].runs| && states[k].runs[r].promoted.Some?
    ensures l < k && steps[l] == StartPromotes(r) && r < |states[l].runs| && states[l].runs[r].obj < |states[l].mem.objs|
    ensures states[l].mem.objs[states[l].runs[r].obj].status == Connecting
    ensures states[k].runs[r].promoted.value == states[l].mem.onChange
    decreases k
  {
    if k > 0 {
      if r >= |states[k - 1].runs| {
        NewRunIsUnfinished(states[k - 1], steps[k - 1], r);
      } else {
        PromotesOnlyByPromoting(states[k - 1], steps[k - 1], r);
        if states[k].runs[r].promoted == states[k - 1].runs[r].promoted {
          l := RunPromotion(cfg, states, steps, k - 1, r);
        } else {
          l := k - 1;
        }
      }
    }
  }

  // -------------------------------------------------------------- why a run fails

  predicate HasFailed(t: TunnelRun.State) {
    t.phase.Returned? && t.phase.outcome.Failed?
  }

  /** The move is the failure that explains this text for this target. */
  ghost predicate Explains(move: TunnelRun.Step, target: TunnelRun.Target, text: string) {
    || (move.DialFails? && text == "unable to connect to SSH server " + target.sshHost + ": " + move.cause)
    || (move.ListenFails? && text == "unable to listen on " + target.localAddr + ": " + move.cause)
  }

  lemma FailureMove(t: TunnelRun.State, ctx: bool, move: TunnelRun.Step)
    requires TunnelRun.Inv(t, ctx) && TunnelRun.Enabled(t, ctx, move) && HasFailed(TunnelRun.Apply(t, ctx, move))
    ensures if HasFailed(t) then TunnelRun.Apply(t, ctx, move).phase == t.phase
            else Explains(move, t.target, TunnelRun.Apply(t, ctx, move).phase.outcome.text)
  {
  }

  lemma TunnelsMoveAlone(s: Machine, step: Step, r: nat)
    requires Shape(s) && Enabled(s, step) && r < |s.runs| && r < |Apply(s, step).runs|
    ensures Apply(s, step).runs[r].tunnel != s.runs[r].tunnel ==>
              && step.TunnelMoves? && step.r == r
              && Apply(s, step).runs[r].tunnel == TunnelRun.Apply(s.runs[r].tunnel, s.mem.cancelled[r], step.move)
  {
  }

  /** Step `l` is the failure of run `r` that explains this tunnel's outcome. */
  ghost predicate FailsAt(steps: seq<Step>, l: nat, r: nat, t: TunnelRun.State) {
    && l < |steps| && steps[l].TunnelMoves? && steps[l].r == r
    && HasFailed(t) && Explains(steps[l].move, t.target, t.phase.outcome.text)
  }

  lemma FailureStep(cfg: seq<TunnelConfig>, states: seq<Machine>, steps: seq<Step>, i: nat, r: nat)
    requires Execution(cfg, states, steps) && i < |steps| && r < |states[i + 1].runs| && HasFailed(states[i + 1].runs[r].tunnel)
    ensures r < |states[i].runs|
    ensures var t, t' := states[i].runs[r].tunnel, states[i + 1].runs[r].tunnel;
            FailsAt(steps, i, r, t') || (HasFailed(t) && t'.phase == t.phase && t'.target == t.target)
  {
    var s, step := states[i], steps[i];
    if r >= |s.runs| {
      NewRunIsUnfinished(s, step, r);
    } else {
      RunOkAt(cfg, states, steps, i, r);
      OriginStays(s, step, r);
      TunnelsMoveAlone(s, step, r);
      if states[i + 1].runs[r].tunnel != s.runs[r].tunnel {
        FailureMove(s.runs[r].tunnel, s.mem.cancelled[r], step.move);
      }
    }
  }

  /**
   * A run that failed did so at one step: a failed dial gives the text that names its SSH host, a
   * failed listen the text that names its local address, each with the cause of that step.
   */
  lemma {:induction false} FailureHasItsCause(cfg: seq<TunnelConfig>, states: seq<Machine>, steps: seq<Step>, k: nat, r: nat)
    returns (l: nat)
    requires Execution(cfg, states, steps) && k < |states| && r < |states[k].runs| && HasFailed(states[k].runs[r].tunnel)
    ensures l < k && FailsAt(steps, l, r, states[k].runs[r].tunnel)
    decreases k
  {
    if k > 0 {
      FailureStep(cfg, states, steps, k - 1, r);
      if FailsAt(steps, k - 1, r, states[k].runs[r].tunnel) {
        l := k - 1;
      } else {
        l := FailureHasItsCause(cfg, states, steps, k - 1, r);
      }
    }
  }

  // -------------------------------------------------------------- status and text of a tunnel

  ghost predicate IsLastRun(runs: seq<Run>, o: nat, r: nat) {
    r < |runs| && runs[r].obj == o && forall q | r < q < |runs| :: runs[q].obj != o
  }

  ghost predicate NeverRun(runs: seq<Run>, o: nat) {
    forall r | 0 <= r < |runs| :: runs[r].obj != o
  }

  /** The object shows how a run with this outcome ended. */
  predicate Shows(t: Tunnel, outcome: TunnelRun.Outcome) {
    match outcome
    case Closed => t.status == Disconnected && t.error == ""
    case Failed(text) => t.status == Error && t.error == text
  }

  /** An unfinished run is the last of its object. */
  ghost predicate UnfinishedAreLast(runs: seq<Run>) {
    forall r | 0 <= r < |runs| && Unfinished(runs[r]) :: IsLastRun(runs, runs[r].obj, r)
  }

  /** A finished last run is what its object shows. */
  ghost predicate LastAreShown(objs: seq<Tunnel>, runs: seq<Run>) {
    forall r | 0 <= r < |runs| && !Unfinished(runs[r]) && IsLastRun(runs, runs[r].obj, r) ::
      runs[r].obj < |objs| && Shows(objs[runs[r].obj], runs[r].worker.outcome)
  }

  ghost predicate UnusedAreIdle(objs: seq<Tunnel>, runs: seq<Run>) {
    forall o | 0 <= o < |objs| && NeverRun(runs, o) :: objs[o].status == Disconnected && objs[o].error == ""
  }

  ghost predicate Told(objs: seq<Tunnel>, runs: seq<Run>) {
    UnfinishedAreLast(runs) && LastAreShown(objs, runs) && UnusedAreIdle(objs, runs)
  }

  lemma LastRunUpdated(runs: seq<Run>, r: nat, run: Run, o: nat, q: nat)
    requires r < |runs| && run.obj == runs[r].obj
    ensures IsLastRun(runs[r := run], o, q) <==> IsLastRun(runs, o, q)
    ensures NeverRun(runs[r := run], o) <==> NeverRun(runs, o)
  {
    var runs' := runs[r := run];
    assert forall p | 0 <= p < |runs| :: runs'[p].obj == runs[p].obj;
  }

  /** A run moves without ending, or reports its end. */
  lemma MoveKeepsTold(objs: seq<Tunnel>, runs: seq<Run>, r: nat, run: Run)
    requires Told(objs, runs) && r < |runs| && run.obj == runs[r].obj && Unfinished(run) == Unfinished(runs[r])
    requires !Unfinished(run) ==> run.worker.outcome == runs[r].worker.outcome
    ensures Told(objs, runs[r := run])
  {
    forall o: nat, q: nat
      ensures IsLastRun(runs[r := run], o, q) <==> IsLastRun(runs, o, q)
      ensures NeverRun(runs[r := run], o) <==> NeverRun(runs, o)
    {
      LastRunUpdated(runs, r, run, o, q);
    }
  }

  lemma FinishKeepsTold(objs: seq<Tunnel>, runs: seq<Run>, r: nat, run: Run, mt: Tunnel)
    requires Told(objs, runs) && r < |runs| && Unfinished(runs[r]) && run.obj == runs[r].obj < |objs|
    requires !Unfinished(run) && Shows(mt, run.worker.outcome)
    ensures Told(objs[run.obj := mt], runs[r := run])
  {
    forall o: nat, q: nat
      ensures IsLastRun(runs[r := run], o, q) <==> IsLastRun(runs, o, q)
      ensures NeverRun(runs[r := run], o) <==> NeverRun(runs, o)
    {
      LastRunUpdated(runs, r, run, o, q);
    }
    assert IsLastRun(runs, run.obj, r);
  }

  lemma LastRunAppended(runs: seq<Run>, run: Run, o: nat, q: nat)
    ensures IsLastRun(runs + [run], o, q) <==> if o == run.obj then q == |runs| else IsLastRun(runs, o, q)
    ensures NeverRun(runs + [run], o) <==> o != run.obj && NeverRun(runs, o)
  {
    var runs' := runs + [run];
    assert forall p | 0 <= p < |runs| :: runs'[p] == runs[p];
    assert runs'[|runs|] == run;
  }

  lemma BeginKeepsLast(objs: seq<Tunnel>, runs: seq<Run>, run: Run)
    requires UnfinishedAreLast(runs) && Ownership(objs, runs)
    requires run.obj < |objs| && !IsActive(objs[run.obj].status)
    ensures UnfinishedAreLast(runs + [run])
  {
    forall r | 0 <= r < |runs + [run]| && Unfinished((runs + [run])[r])
      ensures IsLastRun(runs + [run], (runs + [run])[r].obj, r)
    {
      LastRunAppended(runs, run, (runs + [run])[r].obj, r);
    }
  }

  lemma BeginKeepsShown(objs: seq<Tunnel>, runs: seq<Run>, run: Run, mt: Tunnel)
    requires LastAreShown(objs, runs) && run.obj < |objs| && Unfinished(run)
    ensures LastAreShown(objs[run.obj := mt], runs + [run])
  {
    forall r | 0 <= r < |runs + [run]| && !Unfinished((runs + [run])[r]) && IsLastRun(runs + [run], (runs + [run])[r].obj, r)
      ensures r < |runs| && runs[r].obj != run.obj && IsLastRun(runs, runs[r].obj, r)
    {
      LastRunAppended(runs, run, (runs + [run])[r].obj, r);
    }
  }

  lemma BeginKeepsUnused(objs: seq<Tunnel>, runs: seq<Run>, run: Run, mt: Tunnel)
    requires UnusedAreIdle(objs, runs) && run.obj < |objs|
    ensures UnusedAreIdle(objs[run.obj := mt], runs + [run])
  {
    forall o | 0 <= o < |objs| && NeverRun(runs + [run], o)
      ensures o != run.obj && NeverRun(runs, o)
    {
      LastRunAppended(runs, run, o, 0);
    }
  }

  lemma BeginKeepsTold(objs: seq<Tunnel>, runs: seq<Run>, run: Run, mt: Tunnel)
    requires Told(objs, runs) && Ownership(objs, runs) && run.obj < |objs| && !IsActive(objs[run.obj].status) && Unfinished(run)
    ensures Told(objs[run.obj := mt], runs + [run])
  {
    BeginKeepsLast(objs, runs, run);
    BeginKeepsShown(objs, runs, run, mt);
    BeginKeepsUnused(objs, runs, run, mt);
  }

  lemma ConnectedKeepsTold(objs: seq<Tunnel>, runs: seq<Run>, o: nat)
    requires Told(objs, runs) && o < |objs| && objs[o].status == Connecting
    ensures Told(objs[o := objs[o].(status := Connected)], runs)
  {
  }

  lemma NewObjectKeepsTold(objs: seq<Tunnel>, runs: seq<Run>, t: Tunnel)
    requires Told(objs, runs) && t.status == Disconnected && t.error == ""
    ensures Told(objs + [t], runs)
  {
  }

  lemma StatusStepKeepsTold(s: Machine, step: Step)
    requires Shape(s) && Enabled(s, step) && Ownership(s.mem.objs, s.runs) && Told(s.mem.objs, s.runs) && WritesStatus(step)
    ensures Told(Apply(s, step).mem.objs, Apply(s, step).runs)
  {
    var s' := Apply(s, step);
    match step
    case StartBegins(name, _, _) =>
      if StartError(s.mem, name) == None {
        var o := s.mem.index[name];
        BeginKeepsTold(s.mem.objs, s.runs, s'.runs[|s.runs|], s'.mem.objs[o]);
      }
    case WorkerFinishes(r) =>
      FinishKeepsTold(s.mem.objs, s.runs, r, s'.runs[r], s'.mem.objs[s.runs[r].obj]);
    case StartPromotes(r) =>
      if s.mem.objs[s.runs[r].obj].status == Connecting {
        ConnectedKeepsTold(s.mem.objs, s.runs, s.runs[r].obj);
      }
      MoveKeepsTold(s'.mem.objs, s.runs, r, s'.runs[r]);
  }

  lemma RunStepKeepsTold(s: Machine, step: Step)
    requires Shape(s) && Enabled(s, step) && Runs(s.runs, s.mem.cancelled) && Told(s.mem.objs, s.runs)
    requires step.ConnectingCallback? || step.TunnelMoves? || step.EndCallback? || step.ConnectedCallback?
    ensures Told(Apply(s, step).mem.objs, Apply(s, step).runs)
  {
    assert RunOk(s.runs[step.r], s.mem.cancelled[step.r]);
    MoveKeepsTold(s.mem.objs, s.runs, step.r, Apply(s, step).runs[step.r]);
  }

  lemma ApiStepKeepsTold(s: Machine, step: Step)
    requires Shape(s) && Enabled(s, step) && Told(s.mem.objs, s.runs)
    requires !WritesStatus(step) && !step.ConnectingCallback? && !step.TunnelMoves? && !step.EndCallback? && !step.ConnectedCallback?
    ensures Told(Apply(s, step).mem.objs, Apply(s, step).runs)
  {
    if step.RegisterCalled? {
      NewObjectKeepsTold(s.mem.objs, s.runs, FreshTunnel(step.config.(name := Draw(s.mem.index.Keys, step.candidates)), true));
    }
  }

  lemma StepKeepsTold(s: Machine, step: Step)
    requires Ownership(s.mem.objs, s.runs) && Runs(s.runs, s.mem.cancelled)
    requires Shape(s) && Enabled(s, step) && Told(s.mem.objs, s.runs)
    ensures Told(Apply(s, step).mem.objs, Apply(s, step).runs)
  {
    if WritesStatus(step) {
      StatusStepKeepsTold(s, step);
    } else if step.ConnectingCallback? || step.TunnelMoves? || step.EndCallback? || step.ConnectedCallback? {
      RunStepKeepsTold(s, step);
    } else {
      ApiStepKeepsTold(s, step);
    }
  }

  lemma {:induction false} ToldAt(cfg: seq<TunnelConfig>, states: seq<Machine>, steps: seq<Step>, k: nat)
    requires Execution(cfg, states, steps) && k < |states|
    ensures Told(states[k].mem.objs, states[k].runs)
    decreases k
  {
    if k > 0 {
      ToldAt(cfg, states, steps, k - 1);
      Safety(cfg, states, steps, k - 1);
      StepKeepsTold(states[k - 1], steps[k - 1]);
    }
  }

  lemma ToldWhenReachable(cfg: seq<TunnelConfig>, s: Machine)
    requires Reachable(cfg, s)
    ensures Told(s.mem.objs, s.runs)
  {
    var states, steps :| Execution(cfg, states, steps) && states[|steps|] == s;
    ToldAt(cfg, states, steps, |steps|);
  }

  /**
   * Status and text of a tunnel object are determined by the last run on it: none yet, not ended,
   * closed, or failed with exactly that text.
   */
  lemma StatusTellsTheLastRun(cfg: seq<TunnelConfig>, s: Machine, o: nat)
    requires Reachable(cfg, s) && o < |s.mem.objs|
    ensures NeverRun(s.runs, o) ==> s.mem.objs[o].status == Disconnected && s.mem.objs[o].error == ""
    ensures forall r: nat | IsLastRun(s.runs, o, r) && Unfinished(s.runs[r]) :: IsActive(s.mem.objs[o].status) && s.mem.objs[o].error == ""
    ensures forall r: nat | IsLastRun(s.runs, o, r) && !Unfinished(s.runs[r]) ::
              match s.runs[r].worker.outcome
              case Closed => s.mem.objs[o].status == Disconnected && s.mem.objs[o].error == ""
              case Failed(text) => s.mem.objs[o].status == Error && s.mem.objs[o].error == text
  {
    ToldWhenReachable(cfg, s);
    ActiveMeansOneRun(cfg, s, o);
    NoTextWhileActive(cfg, s, o);
    forall r: nat | IsLastRun(s.runs, o, r) && Unfinished(s.runs[r])
      ensures IsActive(s.mem.objs[o].status)
    {
      assert RunsOn(s, r, o);
    }
  }

  lemma NoTextWhileActive(cfg: seq<TunnelConfig>, s: Machine, o: nat)
    requires Reachable(cfg, s) && o < |s.mem.objs|
    ensures IsActive(s.mem.objs[o].status) ==> s.mem.objs[o].error == ""
  {
    ReachableIsSafe(cfg, s);
    assert TextOk(s.mem.objs[o]);
  }

  lemma {:induction false} LastRunExists(runs: seq<Run>, o: nat) returns (r: nat)
    requires !NeverRun(runs, o)
    ensures IsLastRun(runs, o, r)
    decreases |runs|
  {
    var n := |runs| - 1;
    if runs[n].obj == o {
      r := n;
    } else {
      r := LastRunExists(runs[..n], o);
    }
  }

  /** A tunnel in status Error shows the very text its last run returned: a failure of that run's own target. */
  lemma ErrorTextIsTheRunsOwn(cfg: seq<TunnelConfig>, s: Machine, o: nat) returns (r: nat)
    requires Reachable(cfg, s) && o < |s.mem.objs| && s.mem.objs[o].status == Error
    ensures IsLastRun(s.runs, o, r) && !Unfinished(s.runs[r])
    ensures s.runs[r].worker.outcome == TunnelRun.Failed(s.mem.objs[o].error)
    ensures TunnelRun.ReportsFailure(s.runs[r].tunnel.target, s.mem.objs[o].error)
  {
    StatusTellsTheLastRun(cfg, s, o);
    r := LastRunExists(s.runs, o);
    FailedRunReportsItsTarget(cfg, s, r);
  }

  // -------------------------------------------------------------- callbacks and what is stored

  /** What a callback says of its run, field by field. */
  lemma CallbacksAreTrue(cfg: seq<TunnelConfig>, s: Machine, j: nat)
    requires Reachable(cfg, s) && j < |s.log|
    ensures s.log[j].run < |s.runs|
    ensures var run, change := s.runs[s.log[j].run], s.log[j].change;
            && change.name == run.name
            && (IsActive(change.status) ==> change.error == "")
            && (change.status == Error ==> !Unfinished(run) && run.worker.outcome == TunnelRun.Failed(change.error))
            && (change.status == Disconnected ==> !Unfinished(run) && run.worker.outcome == TunnelRun.Closed && change.error == "")
  {
    ReachableIsSafe(cfg, s);
    assert EventOk(s.runs, s.log, j);
  }

  /** The end callback of a run carries the status and text its tunnel shows until it is started again. */
  lemma EndCallbackMatchesStatus(cfg: seq<TunnelConfig>, s: Machine, j: nat)
    requires Reachable(cfg, s) && j < |s.log| && !IsActive(s.log[j].change.status)
    requires s.log[j].run < |s.runs| && IsLastRun(s.runs, s.runs[s.log[j].run].obj, s.log[j].run)
    ensures s.runs[s.log[j].run].obj < |s.mem.objs|
    ensures var t := s.mem.objs[s.runs[s.log[j].run].obj];
            s.log[j].change.status == t.status && s.log[j].change.error == t.error
  {
    CallbacksAreTrue(cfg, s, j);
    ObjectOfRun(cfg, s, s.log[j].run);
    StatusTellsTheLastRun(cfg, s, s.runs[s.log[j].run].obj);
  }

  lemma ObjectOfRun(cfg: seq<TunnelConfig>, s: Machine, r: nat)
    requires Reachable(cfg, s) && r < |s.runs|
    ensures s.runs[r].obj < |s.mem.objs|
  {
    ReachableIsSafe(cfg, s);
  }

  /** Nothing was installed and nothing fired. */
  ghost predicate Silent(s: Machine) {
    && !s.mem.onChange && s.log == []
    && forall r | 0 <= r < |s.runs| :: !s.runs[r].beginHook && s.runs[r].promoted != Some(true) && !s.runs[r].endHook
  }

  lemma StepKeepsSilent(s: Machine, step: Step)
    requires Shape(s) && Enabled(s, step) && step != HookSet(true) && Silent(s)
    ensures Silent(Apply(s, step))
  {
  }

  /** No callback runs unless one was installed. */
  lemma {:induction false} NoHookNoCallback(cfg: seq<TunnelConfig>, states: seq<Machine>, steps: seq<Step>, k: nat)
    requires Execution(cfg, states, steps) && k < |states| && forall i | 0 <= i < k :: steps[i] != HookSet(true)
    ensures Silent(states[k])
    decreases k
  {
    if k > 0 {
      NoHookNoCallback(cfg, states, steps, k - 1);
      StepKeepsSilent(states[k - 1], steps[k - 1]);
    }
  }

  // -------------------------------------------------------------- registered tunnels

  /** Step `j` is a `Register` call that succeeds. */
  ghost predicate Registers(states: seq<Machine>, steps: seq<Step>, j: nat) {
    && j < |steps| < |states| && steps[j].RegisterCalled?
    && |states[j + 1].mem.objs| > |states[j].mem.objs|
  }

  /** What a successful `Register` adds. */
  lemma RegisterAdds(cfg: seq<TunnelConfig>, states: seq<Machine>, steps: seq<Step>, j: nat)
    requires Execution(cfg, states, steps) && Registers(states, steps, j)
    ensures var o, t := |states[j].mem.objs|, states[j + 1].mem.objs[|states[j].mem.objs|];
            && t.config.host == steps[j].config.host
            && t.config.remote == steps[j].config.remote
            && t.config.local == steps[j].config.local
            && t.config.name in steps[j].candidates && t.config.name !in states[j].mem.index
            && t.status == Disconnected && t.error == "" && t.ephemeral && t.cancel == None
            && IsIndexed(states[j + 1], o)
  {
  }

  /**
   * A registered tunnel keeps what it was registered with: as long as it is indexed its name looks
   * up that host, remote and local address, and every run on it forwards between those addresses.
   */
  lemma RegisteredTunnelIsAsked(cfg: seq<TunnelConfig>, states: seq<Machine>, steps: seq<Step>, j: nat, k: nat)
    requires Execution(cfg, states, steps) && Registers(states, steps, j) && j < k < |states|
    ensures Sound(states[k].mem) && |states[j].mem.objs| < |states[k].mem.objs|
    ensures var o, m := |states[j].mem.objs|, states[k].mem;
            var asked, config := steps[j].config, m.objs[o].config;
            && config.host == asked.host && config.remote == asked.remote && config.local == asked.local
            && config.name == states[j + 1].mem.objs[o].config.name && m.objs[o].ephemeral
            && (IsIndexed(states[k], o) ==> ConfigOf(m, config.name) == Some(config))
            && (forall r | 0 <= r < |states[k].runs| && states[k].runs[r].obj == o ::
                  && states[k].runs[r].name == config.name
                  && states[k].runs[r].tunnel.target.remoteAddr == asked.remote
                  && states[k].runs[r].tunnel.target.localAddr == asked.local)
  {
    RegisterAdds(cfg, states, steps, j);
    IdentityForGood(cfg, states, steps, j + 1, k, |states[j].mem.objs|);
    NamedAt(cfg, states, steps, k);
  }

  lemma NamedAt(cfg: seq<TunnelConfig>, states: seq<Machine>, steps: seq<Step>, k: nat)
    requires Execution(cfg, states, steps) && k < |states|
    ensures Sound(states[k].mem) && Named(states[k].mem.objs, states[k].runs)
  {
    Safety(cfg, states, steps, k);
  }
}
