/**
 * The life of an entry over whole executions: when a stopped ephemeral tunnel leaves, which
 * names can vanish, and which configured entries can never be started.
 */
module ManagerLifecycle {
  import opened Prelude
  import opened ManagerMemory
  import opened ManagerMachine
  import opened ManagerInvariant
  import opened ManagerTheorems
  import Config
  import TunnelRun

  // -------------------------------------------------------------- one step

  ghost predicate Running(s: Machine, o: nat) {
    exists r: nat :: RunsOn(s, r, o)
  }

  /** Object `o` is what its own name looks up. */
  ghost predicate IsIndexed(s: Machine, o: nat) {
    o < |s.mem.objs| && var n := s.mem.objs[o].config.name; n in s.mem.index && s.mem.index[n] == o
  }

  /** The step asks for an entry of this name to be removed. */
  predicate Removes(step: Step, n: string) {
    step == DeleteFires(n) || step == UnregisterCalled(n)
  }

  lemma RunningIsActive(s: Machine, cfg: seq<TunnelConfig>, o: nat)
    requires Inv(s, cfg) && o < |s.mem.objs|
    ensures Running(s, o) <==> IsActive(s.mem.objs[o].status)
  {
    if IsActive(s.mem.objs[o].status) {
      assert RunsOn(s, s.mem.objs[o].cancel.value, o);
    }
  }

  /** Objects are never reconfigured. */
  lemma IdentityStays(s: Machine, step: Step, o: nat)
    requires Shape(s) && Enabled(s, step) && o < |s.mem.objs|
    ensures o < |Apply(s, step).mem.objs|
    ensures Apply(s, step).mem.objs[o].config == s.mem.objs[o].config
    ensures Apply(s, step).mem.objs[o].ephemeral == s.mem.objs[o].ephemeral
  {
    if !WritesStatus(step) {
      OthersKeepObjects(s, step);
    }
  }

  /** The locked regions that rewrite a tunnel object. */
  predicate WritesStatus(step: Step) {
    step.StartBegins? || step.WorkerFinishes? || step.StartPromotes?
  }

  lemma OthersKeepObjects(s: Machine, step: Step)
    requires Shape(s) && Enabled(s, step) && !WritesStatus(step)
    ensures s.mem.objs <= Apply(s, step).mem.objs
  {
  }

  /** What a step does to one name of the index. */
  lemma IndexStep(s: Machine, step: Step, n: string)
    requires Shape(s) && Enabled(s, step)
    ensures n in s.mem.index && !Removes(step, n) ==>
              n in Apply(s, step).mem.index && Apply(s, step).mem.index[n] == s.mem.index[n]
    ensures n in s.mem.index && n in Apply(s, step).mem.index ==> Apply(s, step).mem.index[n] == s.mem.index[n]
    ensures n !in s.mem.index && n in Apply(s, step).mem.index ==> Apply(s, step).mem.index[n] == |s.mem.objs|
  {
  }

  /** A removal that is asked for happens exactly when the ephemeral tunnel has no unfinished run. */
  lemma RemovalStep(s: Machine, cfg: seq<TunnelConfig>, step: Step, o: nat)
    requires Inv(s, cfg) && Shape(s) && Enabled(s, step) && IsIndexed(s, o) && s.mem.objs[o].ephemeral
    requires Removes(step, s.mem.objs[o].config.name)
    ensures IsIndexed(Apply(s, step), o) <==> Running(s, o)
  {
    RunningIsActive(s, cfg, o);
    IdentityStays(s, step, o);
  }

  /** A delayed delete leaves exactly the objects of its name that have an unfinished run. */
  lemma DeleteSparesExactlyRunning(cfg: seq<TunnelConfig>, s: Machine, o: nat)
    requires Reachable(cfg, s) && Shape(s) && o < |s.mem.objs| && s.mem.objs[o].config.name in s.deletes
    ensures IsIndexed(Apply(s, DeleteFires(s.mem.objs[o].config.name)), o) <==> Running(s, o)
  {
    ReachableIsSafe(cfg, s);
    RunningIsActive(s, cfg, o);
    if IsIndexed(s, o) {
      EphemeralIsNotConfigured(s, cfg, s.mem.objs[o].config.name);
      RemovalStep(s, cfg, DeleteFires(s.mem.objs[o].config.name), o);
    } else {
      GoneForGood(s, DeleteFires(s.mem.objs[o].config.name), o);
    }
  }

  /** An object that has left the index never returns to it. */
  lemma GoneForGood(s: Machine, step: Step, o: nat)
    requires Shape(s) && Enabled(s, step) && o < |s.mem.objs| && !IsIndexed(s, o)
    ensures !IsIndexed(Apply(s, step), o)
  {
    IdentityStays(s, step, o);
    IndexStep(s, step, s.mem.objs[o].config.name);
  }

  lemma UntouchedStays(s: Machine, step: Step, o: nat)
    requires Shape(s) && Enabled(s, step) && IsIndexed(s, o) && !Removes(step, s.mem.objs[o].config.name)
    ensures IsIndexed(Apply(s, step), o)
  {
    IdentityStays(s, step, o);
    IndexStep(s, step, s.mem.objs[o].config.name);
  }

  // -------------------------------------------------------------- removal after Stop

  /** `Stop` leaves a delete behind exactly when it stops an ephemeral tunnel. */
  lemma StopSchedulesItsDelete(s: Machine, n: string)
    requires Shape(s)
    ensures Apply(s, StopCalled(n)).deletes
            == if n in s.mem.index && IsActive(s.mem.objs[s.mem.index[n]].status) && s.mem.objs[s.mem.index[n]].ephemeral
               then s.deletes + multiset{n} else s.deletes
  {
  }

  /** A successful `Stop` of the ephemeral object `o` at step `j`. */
  ghost predicate StopsEphemeral(states: seq<Machine>, steps: seq<Step>, j: nat, o: nat) {
    && j < |steps| && j < |states| && IsIndexed(states[j], o)
    && states[j].mem.objs[o].ephemeral && IsActive(states[j].mem.objs[o].status)
    && steps[j] == StopCalled(states[j].mem.objs[o].config.name)
  }

  /** The delete a `Stop` leaves behind stays pending until it fires. */
  lemma {:induction false} DeletePendingUntilItFires(cfg: seq<TunnelConfig>, states: seq<Machine>, steps: seq<Step>,
                                                     j: nat, k: nat, o: nat)
    requires Execution(cfg, states, steps) && j < k < |states| && StopsEphemeral(states, steps, j, o)
    ensures var n := states[j].mem.objs[o].config.name;
            n in states[k].deletes || exists l | j < l < k :: steps[l] == DeleteFires(n)
    decreases k
  {
    if j + 1 == k {
      StopSchedulesItsDelete(states[j], states[j].mem.objs[o].config.name);
    } else {
      DeletePendingUntilItFires(cfg, states, steps, j, k - 1, o);
      PendingStep(states[k - 1], steps[k - 1], states[j].mem.objs[o].config.name);
      if steps[k - 1] == DeleteFires(states[j].mem.objs[o].config.name) {
        assert j < k - 1 < k;
      }
    }
  }

  lemma PendingStep(s: Machine, step: Step, n: string)
    requires Shape(s) && Enabled(s, step)
    ensures n in s.deletes && step != DeleteFires(n) ==> n in Apply(s, step).deletes
    ensures n !in s.deletes && step != StopCalled(n) ==> n !in Apply(s, step).deletes
  {
  }

  /** Every removal of `n` asked for strictly between `j` and `k` found object `o` with an unfinished run. */
  ghost predicate SurvivesAll(states: seq<Machine>, steps: seq<Step>, j: nat, k: nat, n: string, o: nat) {
    k < |states| == |steps| + 1 && forall l | j < l < k && Removes(steps[l], n) :: Running(states[l], o)
  }

  /** How the step at `i` decides whether object `o`, called `n`, is still indexed. */
  ghost predicate EntryLaw(states: seq<Machine>, steps: seq<Step>, i: nat, n: string, o: nat)
    requires i < |steps| < |states|
  {
    IsIndexed(states[i + 1], o) <==> IsIndexed(states[i], o) && (Removes(steps[i], n) ==> Running(states[i], o))
  }

  lemma {:induction false} EntrySurvives(states: seq<Machine>, steps: seq<Step>, j: nat, k: nat, n: string, o: nat)
    requires j < k < |states| == |steps| + 1 && IsIndexed(states[j + 1], o)
    requires forall i | j < i < k :: EntryLaw(states, steps, i, n, o)
    ensures IsIndexed(states[k], o) <==> SurvivesAll(states, steps, j, k, n, o)
    decreases k
  {
    if j + 1 < k {
      EntrySurvives(states, steps, j, k - 1, n, o);
      assert EntryLaw(states, steps, k - 1, n, o);
    }
  }

  /** Object `o` is in both states, with the same configuration and kind. */
  ghost predicate SameObject(s: Machine, s': Machine, o: nat) {
    && o < |s.mem.objs| && o < |s'.mem.objs|
    && s'.mem.objs[o].config == s.mem.objs[o].config && s'.mem.objs[o].ephemeral == s.mem.objs[o].ephemeral
  }

  lemma {:induction false} SameObjectThroughout(states: seq<Machine>, j: nat, k: nat, o: nat)
    requires j <= k < |states| && o < |states[j].mem.objs|
    requires forall i | j <= i < k && o < |states[i].mem.objs| :: SameObject(states[i], states[i + 1], o)
    ensures SameObject(states[j], states[k], o)
    decreases k
  {
    if j < k {
      SameObjectThroughout(states, j, k - 1, o);
      assert SameObject(states[k - 1], states[k], o);
    }
  }

  lemma IdentityForGood(cfg: seq<TunnelConfig>, states: seq<Machine>, steps: seq<Step>, j: nat, k: nat, o: nat)
    requires Execution(cfg, states, steps) && j <= k < |states| && o < |states[j].mem.objs|
    ensures o < |states[k].mem.objs| && states[k].mem.objs[o].config == states[j].mem.objs[o].config
    ensures states[k].mem.objs[o].ephemeral == states[j].mem.objs[o].ephemeral
  {
    forall i | j <= i < k && o < |states[i].mem.objs|
      ensures SameObject(states[i], states[i + 1], o)
    {
      IdentityStays(states[i], steps[i], o);
    }
    SameObjectThroughout(states, j, k, o);
  }

  lemma EntryStep(cfg: seq<TunnelConfig>, states: seq<Machine>, steps: seq<Step>, i: nat, o: nat)
    requires Execution(cfg, states, steps) && i < |steps|
    requires o < |states[i].mem.objs| && states[i].mem.objs[o].ephemeral
    ensures EntryLaw(states, steps, i, states[i].mem.objs[o].config.name, o)
  {
    var s, step := states[i], steps[i];
    if !IsIndexed(s, o) {
      GoneForGood(s, step, o);
    } else if Removes(step, s.mem.objs[o].config.name) {
      Safety(cfg, states, steps, i);
      RemovalStep(s, cfg, step, o);
    } else {
      UntouchedStays(s, step, o);
    }
  }

  /**
   * When a stopped ephemeral tunnel goes: it is still indexed at `k` exactly when every delete
   * of its name that fired since the `Stop`, and every `Unregister`, found it with an unfinished
   * run.  One that found it without a run has removed it for good.
   */
  lemma StoppedEphemeralLeavesExactly(cfg: seq<TunnelConfig>, states: seq<Machine>, steps: seq<Step>, j: nat, k: nat, o: nat)
    requires Execution(cfg, states, steps) && j < k < |states| && StopsEphemeral(states, steps, j, o)
    ensures o < |states[k].mem.objs| && states[k].mem.objs[o].config == states[j].mem.objs[o].config
    ensures IsIndexed(states[k], o) <==> SurvivesAll(states, steps, j, k, states[j].mem.objs[o].config.name, o)
  {
    var n := states[j].mem.objs[o].config.name;
    UntouchedStays(states[j], steps[j], o);
    forall i | j < i < k
      ensures EntryLaw(states, steps, i, n, o)
    {
      IdentityForGood(cfg, states, steps, j, i, o);
      EntryStep(cfg, states, steps, i, o);
    }
    EntrySurvives(states, steps, j, k, n, o);
    IdentityForGood(cfg, states, steps, j, k, o);
  }

  // -------------------------------------------------------------- a stopped tunnel that stays

  /** Nobody stops or unregisters this name between `j` and `k`. */
  ghost predicate LeavesAlone(steps: seq<Step>, j: nat, k: nat, n: string) {
    k <= |steps| && forall i | j <= i < k :: steps[i] != StopCalled(n) && steps[i] != UnregisterCalled(n)
  }

  /** An entry without a pending delete stays until somebody stops or unregisters it. */
  lemma {:induction false} EntryStays(cfg: seq<TunnelConfig>, states: seq<Machine>, steps: seq<Step>, j: nat, k: nat, o: nat)
    requires Execution(cfg, states, steps) && j <= k < |states| && IsIndexed(states[j], o)
    requires states[j].mem.objs[o].config.name !in states[j].deletes
    requires LeavesAlone(steps, j, k, states[j].mem.objs[o].config.name)
    ensures IsIndexed(states[k], o) && states[k].mem.objs[o].config == states[j].mem.objs[o].config
    ensures states[k].mem.objs[o].config.name !in states[k].deletes
    decreases k
  {
    if j < k {
      EntryStays(cfg, states, steps, j, k - 1, o);
      var s, step := states[k - 1], steps[k - 1];
      IdentityStays(s, step, o);
      PendingStep(s, step, s.mem.objs[o].config.name);
      UntouchedStays(s, step, o);
    }
  }

  /**
   * `Stop` is documented to remove an ephemeral tunnel after stopping it, but the delete may find
   * the tunnel still active: here it has been stopped and is idle, and however the execution goes
   * on it stays indexed until somebody stops or unregisters it again.
   */
  lemma StoppedEphemeralCanStay() returns (s: Machine, o: nat)
    ensures Reachable([], s) && IsIndexed(s, o) && s.mem.objs[o].ephemeral && !IsActive(s.mem.objs[o].status)
    ensures |s.runs| == 1 && s.runs[0].obj == o && |s.mem.cancelled| == 1 && s.mem.cancelled[0]
    ensures forall states, steps, j: nat, k: nat |
              Execution([], states, steps) && j <= k < |states| && states[j] == s
              && LeavesAlone(steps, j, k, s.mem.objs[o].config.name) :: IsIndexed(states[k], o)
  {
    o := 0;
    s := StoppedAndIdle("a");
    forall states, steps, j: nat, k: nat |
      Execution([], states, steps) && j <= k < |states| && states[j] == s
      && LeavesAlone(steps, j, k, s.mem.objs[o].config.name)
      ensures IsIndexed(states[k], o)
    {
      EntryStays([], states, steps, j, k, o);
    }
  }

  lemma StoppedAndIdle(name: string) returns (s: Machine)
    ensures Reachable([], s) && IsIndexed(s, 0) && s.mem.objs[0].ephemeral && !IsActive(s.mem.objs[0].status)
    ensures |s.runs| == 1 && s.runs[0].obj == 0 && |s.mem.cancelled| == 1 && s.mem.cancelled[0]
    ensures s.deletes == multiset{}
  {
    s := StoppedAndReturned(name);
    ReachNext([], s, WorkerFinishes(0));
    s := Apply(s, WorkerFinishes(0));
    ReachableIsSafe([], s);
  }

  lemma StoppedAndReturned(name: string) returns (s: Machine)
    ensures Reachable([], s) && Shape(s) && name in s.mem.index && s.mem.index[name] == 0
    ensures |s.mem.objs| == 1 && s.mem.objs[0].ephemeral
    ensures |s.runs| == 1 && s.runs[0].obj == 0 && s.runs[0].worker == Working && s.runs[0].tunnel.phase.Returned?
    ensures s.mem.cancelled[0] && s.deletes == multiset{}
  {
    s := StoppedWhileActive(name);
    ReachNext([], s, TunnelMoves(0, TunnelRun.DialFails("")));
    s := Apply(s, TunnelMoves(0, TunnelRun.DialFails("")));
  }

  /** Register, start and stop a tunnel, and let the delete fire before the worker returns. */
  lemma StoppedWhileActive(name: string) returns (s: Machine)
    ensures Reachable([], s) && Shape(s) && name in s.mem.index && s.mem.index[name] == 0
    ensures |s.mem.objs| == 1 && s.mem.objs[0].ephemeral
    ensures |s.runs| == 1 && s.runs[0].obj == 0 && s.runs[0].worker == Working
    ensures s.runs[0].tunnel.phase == TunnelRun.DialingSSH
    ensures s.mem.cancelled[0] && s.deletes == multiset{}
  {
    s := StartedEphemeral(name);
    ReachNext([], s, ConnectingCallback(0));
    s := Apply(s, ConnectingCallback(0));
    ReachNext([], s, StopCalled(name));
    s := Apply(s, StopCalled(name));
    ReachNext([], s, DeleteFires(name));
    s := Apply(s, DeleteFires(name));
  }

  lemma StartedEphemeral(name: string) returns (s: Machine)
    ensures Reachable([], s) && Shape(s) && s.mem.index == map[name := 0]
    ensures |s.mem.objs| == 1 && s.mem.objs[0].ephemeral
    ensures s.mem.objs[0].status == Connecting && s.mem.objs[0].cancel == Some(0)
    ensures |s.runs| == 1 && s.runs[0].obj == 0 && s.runs[0].caller == Notifying
    ensures s.runs[0].tunnel.phase == TunnelRun.DialingSSH && s.deletes == multiset{}
  {
    InitReachable([]);
    s := Init([]);
    var candidates := seq(NAME_ATTEMPTS, i => name);
    var register := RegisterCalled(Config.TunnelConfig("", "h", "r", "l"), candidates);
    ReachNext([], s, register);
    s := Apply(s, register);
    ReachNext([], s, StartBegins(name, "h:22", "u"));
    s := Apply(s, StartBegins(name, "h:22", "u"));
  }

  // -------------------------------------------------------------- names that can vanish

  lemma PrefixReachable(cfg: seq<TunnelConfig>, states: seq<Machine>, steps: seq<Step>, k: nat)
    requires Execution(cfg, states, steps) && k < |states|
    ensures Reachable(cfg, states[k])
  {
    assert Execution(cfg, states[..k + 1], steps[..k]);
    assert states[..k + 1][|steps[..k]|] == states[k];
  }

  /** `Register` has been given this name by the name generator. */
  ghost predicate Drawn(steps: seq<Step>, k: nat, name: string) {
    exists l | 0 <= l < k && l < |steps| :: steps[l].RegisterCalled? && name in steps[l].candidates
  }

  predicate IsConfigured(cfg: seq<TunnelConfig>, name: string) {
    exists i | 0 <= i < |cfg| :: cfg[i].name == name
  }

  lemma OnlyRegisterAdds(s: Machine, step: Step, n: string)
    requires Shape(s) && Enabled(s, step) && n !in s.mem.index && n in Apply(s, step).mem.index
    ensures step.RegisterCalled? && n in step.candidates
  {
  }

  lemma FirstIndexIsConfigured(cfg: seq<TunnelConfig>, name: string)
    requires name in Init(cfg).mem.index
    ensures IsConfigured(cfg, name)
  {
    LastEntryIsLast(cfg);
    assert IsLast(cfg, name, LastEntry(cfg)[name]);
  }

  lemma IndexedOrDrawnNow(cfg: seq<TunnelConfig>, states: seq<Machine>, steps: seq<Step>, k: nat, name: string)
    requires Execution(cfg, states, steps) && k < |steps| && name in states[k + 1].mem.index
    ensures name in states[k].mem.index || Drawn(steps, k + 1, name)
  {
    if name !in states[k].mem.index {
      OnlyRegisterAdds(states[k], steps[k], name);
    }
  }

  lemma DrawnStays(steps: seq<Step>, j: nat, k: nat, name: string)
    requires j <= k && Drawn(steps, j, name)
    ensures Drawn(steps, k, name)
  {
  }

  /** A name that is looked up with success is configured or was drawn earlier. */
  lemma {:induction false} IndexedWasDrawn(cfg: seq<TunnelConfig>, states: seq<Machine>, steps: seq<Step>, k: nat, name: string)
    requires Execution(cfg, states, steps) && k < |states| && name in states[k].mem.index
    ensures IsConfigured(cfg, name) || Drawn(steps, k, name)
    decreases k
  {
    if k == 0 {
      FirstIndexIsConfigured(cfg, name);
    } else {
      IndexedOrDrawnNow(cfg, states, steps, k - 1, name);
      if name in states[k - 1].mem.index {
        IndexedWasDrawn(cfg, states, steps, k - 1, name);
        if Drawn(steps, k - 1, name) {
          DrawnStays(steps, k - 1, k, name);
        }
      }
    }
  }

  lemma ConfiguredIsIndexed(cfg: seq<TunnelConfig>, states: seq<Machine>, steps: seq<Step>, k: nat, name: string)
    requires Execution(cfg, states, steps) && k < |states| && IsConfigured(cfg, name)
    ensures name in states[k].mem.index
  {
    var i :| 0 <= i < |cfg| && cfg[i].name == name;
    PrefixReachable(cfg, states, steps, k);
    ConfiguredStays(cfg, states[k], i);
  }

  /** A name that is indexed at `j` and no longer at `k` is not configured: the name generator drew it. */
  lemma VanishedWasDrawn(cfg: seq<TunnelConfig>, states: seq<Machine>, steps: seq<Step>, j: nat, k: nat, name: string)
    requires Execution(cfg, states, steps) && j <= k < |states|
    requires name in states[j].mem.index && name !in states[k].mem.index
    ensures !IsConfigured(cfg, name) && Drawn(steps, j, name)
  {
    if IsConfigured(cfg, name) {
      ConfiguredIsIndexed(cfg, states, steps, k, name);
    }
    IndexedWasDrawn(cfg, states, steps, j, name);
  }

  // -------------------------------------------------------------- entries that can never be started

  lemma StepRuns(s: Machine, cfg: seq<TunnelConfig>, step: Step, r: nat)
    requires Inv(s, cfg) && Shape(s) && Enabled(s, step) && r < |Apply(s, step).runs|
    ensures r < |s.runs| ==> Apply(s, step).runs[r].obj == s.runs[r].obj
    ensures r >= |s.runs| ==> IsIndexed(s, Apply(s, step).runs[r].obj)
  {
  }

  /** A configured entry that its name does not look up is shadowed by a later one. */
  lemma ShadowedIsNotIndexed(s: Machine, cfg: seq<TunnelConfig>, i: nat)
    requires Inv(s, cfg) && i < |cfg| && IsIndexed(s, i)
    ensures IsLast(cfg, cfg[i].name, i)
  {
    LastEntryIsLast(cfg);
    assert cfg[i].name in LastEntry(cfg);
    assert IsLast(cfg, cfg[i].name, LastEntry(cfg)[cfg[i].name]);
  }

  ghost predicate NoRunOn(s: Machine, i: nat) {
    forall r | 0 <= r < |s.runs| :: s.runs[r].obj != i
  }

  lemma ShadowedStep(cfg: seq<TunnelConfig>, states: seq<Machine>, steps: seq<Step>, k: nat, i: nat)
    requires Execution(cfg, states, steps) && k < |steps| && i < |cfg| && !IsLast(cfg, cfg[i].name, i) && NoRunOn(states[k], i)
    ensures NoRunOn(states[k + 1], i)
  {
    Safety(cfg, states, steps, k);
    var s' := states[k + 1];
    forall r | 0 <= r < |s'.runs|
      ensures s'.runs[r].obj != i
    {
      StepRuns(states[k], cfg, steps[k], r);
      if s'.runs[r].obj == i {
        ShadowedIsNotIndexed(states[k], cfg, i);
      }
    }
  }

  /** A configured entry that is not the last of its name never has a run: that tunnel cannot be started. */
  lemma {:induction false} ShadowedEntryNeverStarts(cfg: seq<TunnelConfig>, states: seq<Machine>, steps: seq<Step>, k: nat, i: nat)
    requires Execution(cfg, states, steps) && k < |states| && i < |cfg| && !IsLast(cfg, cfg[i].name, i)
    ensures forall r | 0 <= r < |states[k].runs| :: states[k].runs[r].obj != i
    decreases k
  {
    if k > 0 {
      ShadowedEntryNeverStarts(cfg, states, steps, k - 1, i);
      ShadowedStep(cfg, states, steps, k - 1, i);
    }
  }

  /** What `Load` makes of three tunnels called a, a and a-2. */
  function ShadowedConfig(): seq<TunnelConfig> {
    [Config.TunnelConfig("a", "x", "r", "l"), Config.TunnelConfig("a-2", "y", "r", "l"), Config.TunnelConfig("a-2", "z", "r", "l")]
  }

  /**
   * Index and scan really disagree on a list that `Load` produces: the scan for "a-2" finds the
   * entry with host y, the index the one with host z.
   */
  lemma IndexAndScanDisagree()
    ensures var ts := [Config.TunnelConfig("a", "x", "r", "l"), Config.TunnelConfig("a", "y", "r", "l"), Config.TunnelConfig("a-2", "z", "r", "l")];
            forall i | 0 <= i < 3 :: ShadowedConfig()[i] == ts[i].(name := Config.FinalName(ts, i))
    ensures Config.IsFirst(ShadowedConfig(), "a-2", 1) && IsLast(ShadowedConfig(), "a-2", 2)
    ensures Reachable(ShadowedConfig(), Init(ShadowedConfig())) && Sound(NewMemory(ShadowedConfig()))
    ensures ConfigOf(NewMemory(ShadowedConfig()), "a-2") == Some(ShadowedConfig()[2]) != Some(ShadowedConfig()[1])
  {
    ShadowedNames();
    InitReachable(ShadowedConfig());
    ShadowedEntries();
    IndexAgreesWithScan(ShadowedConfig(), Init(ShadowedConfig()), "a-2", 1, 2);
  }

  lemma ShadowedNames()
    ensures var ts := [Config.TunnelConfig("a", "x", "r", "l"), Config.TunnelConfig("a", "y", "r", "l"), Config.TunnelConfig("a-2", "z", "r", "l")];
            forall i | 0 <= i < 3 :: ShadowedConfig()[i] == ts[i].(name := Config.FinalName(ts, i))
  {
    Config.CollisionNames("x", "y", "z");
  }

  lemma ShadowedEntries()
    ensures var cfg := ShadowedConfig();
            && Config.IsFirst(cfg, "a-2", 1) && IsLast(cfg, "a-2", 2) && cfg[1] != cfg[2]
            && "a-2" in NewMemory(cfg).index && NewMemory(cfg).index["a-2"] == 2
  {
    var cfg := ShadowedConfig();
    assert cfg[0].name != cfg[1].name;
    LastEntryIsLast(cfg);
    assert cfg[2].name in LastEntry(cfg);
    assert IsLast(cfg, "a-2", LastEntry(cfg)["a-2"]);
  }
}
