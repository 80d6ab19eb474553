/** The inductive invariant of the manager's step system, one lemma per kind of effect. */
module ManagerInvariant {
  import opened Prelude
  import opened ManagerMemory
  import opened ManagerMachine
  import TunnelRun

  /** A tunnel object is active exactly while it owns an unfinished run, and it can cancel that run. */
  ghost predicate Ownership(objs: seq<Tunnel>, runs: seq<Run>) {
    && (forall o | 0 <= o < |objs| :: IsActive(objs[o].status) <==> objs[o].cancel.Some?)
    && (forall o | 0 <= o < |objs| && objs[o].cancel.Some? ::
          var r := objs[o].cancel.value; r < |runs| && runs[r].obj == o && Unfinished(runs[r]))
    && (forall r | 0 <= r < |runs| && Unfinished(runs[r]) ::
          runs[r].obj < |objs| && objs[runs[r].obj].cancel == Some(r))
  }

  /** Keys are names, and an active object is indexed under its own name. */
  ghost predicate Indexed(objs: seq<Tunnel>, index: map<string, nat>) {
    && (forall n | n in index :: index[n] < |objs| && objs[index[n]].config.name == n)
    && (forall o | 0 <= o < |objs| && IsActive(objs[o].status) ::
          var n := objs[o].config.name; n in index && index[n] == o)
  }

  /** The run was started under the name of the object and forwards between its addresses. */
  predicate Serves(run: Run, tc: TunnelConfig) {
    && run.name == tc.name
    && run.tunnel.target.remoteAddr == tc.remote
    && run.tunnel.target.localAddr == tc.local
  }

  ghost predicate Named(objs: seq<Tunnel>, runs: seq<Run>) {
    forall r | 0 <= r < |runs| :: runs[r].obj < |objs| && Serves(runs[r], objs[runs[r].obj].config)
  }

  /** Configured tunnels stay where `NewManager` put them and only the others are ephemeral. */
  ghost predicate Configured(objs: seq<Tunnel>, index: map<string, nat>, cfg: seq<TunnelConfig>) {
    && |cfg| <= |objs|
    && (forall o | 0 <= o < |objs| :: objs[o].ephemeral <==> o >= |cfg|)
    && (forall o | 0 <= o < |cfg| :: objs[o].config == cfg[o])
    && (forall n | n in LastEntry(cfg) :: n in index && index[n] == LastEntry(cfg)[n])
  }

  /** No pending delayed delete names a configured tunnel. */
  ghost predicate DeletesOk(deletes: multiset<string>, cfg: seq<TunnelConfig>) {
    forall n | n in deletes :: n !in LastEntry(cfg)
  }

  /** An error text is present exactly in status Error and is never the not-found sentinel. */
  ghost predicate TextOk(t: Tunnel) {
    && (t.error != "" <==> t.status == Error)
    && t.error != NOT_FOUND_TEXT
  }

  ghost predicate Texts(objs: seq<Tunnel>) {
    forall o | 0 <= o < |objs| :: TextOk(objs[o])
  }

  /** What the goroutines of one run know about its tunnel. */
  ghost predicate RunOk(run: Run, cancelled: bool) {
    && TunnelRun.Inv(run.tunnel, cancelled)
    && (run.caller == Notifying <==> run.worker == Unspawned)
    && (run.worker.Reporting? || run.worker.Exited? ==> run.tunnel.phase == TunnelRun.Returned(run.worker.outcome))
  }

  ghost predicate Runs(runs: seq<Run>, cancelled: seq<bool>) {
    |cancelled| == |runs| && forall r | 0 <= r < |runs| :: RunOk(runs[r], cancelled[r])
  }

  ghost predicate Inv(s: Machine, cfg: seq<TunnelConfig>) {
    && |s.writes| == |s.mem.objs|
    && Ownership(s.mem.objs, s.runs)
    && Indexed(s.mem.objs, s.mem.index)
    && Named(s.mem.objs, s.runs)
    && Configured(s.mem.objs, s.mem.index, cfg)
    && DeletesOk(s.deletes, cfg)
    && Texts(s.mem.objs)
    && Runs(s.runs, s.mem.cancelled)
  }

  lemma InvShape(s: Machine, cfg: seq<TunnelConfig>)
    requires Inv(s, cfg)
    ensures Shape(s)
  {
  }

  lemma InitInv(cfg: seq<TunnelConfig>)
    ensures Inv(Init(cfg), cfg)
  {
    LastEntryIsLast(cfg);
    var s := Init(cfg);
    forall n | n in s.mem.index
      ensures s.mem.index[n] < |s.mem.objs| && s.mem.objs[s.mem.index[n]].config.name == n
    {
      assert IsLast(cfg, n, LastEntry(cfg)[n]);
    }
  }

  /** A configured name belongs to an object that is not ephemeral. */
  lemma EphemeralIsNotConfigured(s: Machine, cfg: seq<TunnelConfig>, name: string)
    requires Inv(s, cfg) && name in s.mem.index
    ensures s.mem.objs[s.mem.index[name]].ephemeral <==> name !in LastEntry(cfg)
  {
    LastEntryIsLast(cfg);
    if name in LastEntry(cfg) {
      assert IsLast(cfg, name, LastEntry(cfg)[name]);
    } else {
      assert forall i | 0 <= i < |cfg| :: cfg[i].name != name;
    }
  }

  // -------------------------------------------------------------- effects on objects

  /** Rewriting the mutable fields of one object keeps what does not mention activity. */
  lemma ObjectUpdateKeepsIdentity(objs: seq<Tunnel>, index: map<string, nat>, runs: seq<Run>, cfg: seq<TunnelConfig>,
                                  o: nat, mt: Tunnel)
    requires Named(objs, runs) && Configured(objs, index, cfg) && Texts(objs)
    requires o < |objs| && mt.config == objs[o].config && mt.ephemeral == objs[o].ephemeral && TextOk(mt)
    ensures Named(objs[o := mt], runs) && Configured(objs[o := mt], index, cfg) && Texts(objs[o := mt])
  {
  }

  lemma ObjectUpdateKeepsIndexed(objs: seq<Tunnel>, index: map<string, nat>, o: nat, mt: Tunnel)
    requires Indexed(objs, index) && o < |objs| && mt.config == objs[o].config
    requires IsActive(mt.status) ==> objs[o].config.name in index && index[objs[o].config.name] == o
    ensures Indexed(objs[o := mt], index)
  {
  }

  /** A fresh ephemeral object enters the index under a free name. */
  lemma InsertionKeeps(objs: seq<Tunnel>, index: map<string, nat>, runs: seq<Run>, cfg: seq<TunnelConfig>,
                       tc: TunnelConfig)
    requires Indexed(objs, index) && Named(objs, runs) && Configured(objs, index, cfg) && Ownership(objs, runs)
    requires tc.name !in index
    ensures Indexed(objs + [FreshTunnel(tc, true)], index[tc.name := |objs|])
    ensures Configured(objs + [FreshTunnel(tc, true)], index[tc.name := |objs|], cfg)
    ensures Named(objs + [FreshTunnel(tc, true)], runs) && Ownership(objs + [FreshTunnel(tc, true)], runs)
  {
  }

  /** A goroutine of the run moves, the tunnel does not. */
  lemma RunOkMoved(run: Run, run': Run, cancelled: bool)
    requires RunOk(run, cancelled) && run'.tunnel == run.tunnel
    requires run'.caller == Notifying <==> run'.worker == Unspawned
    requires run'.worker.Reporting? || run'.worker.Exited? ==>
               run.tunnel.phase == TunnelRun.Returned(run'.worker.outcome)
    ensures RunOk(run', cancelled)
  {
  }

  lemma RunsUpdated(runs: seq<Run>, cancelled: seq<bool>, r: nat, run: Run)
    requires Runs(runs, cancelled) && r < |runs| && RunOk(run, cancelled[r])
    ensures Runs(runs[r := run], cancelled)
  {
  }

  /** An idle object starts a new run. */
  lemma OwnershipGained(objs: seq<Tunnel>, runs: seq<Run>, o: nat, mt: Tunnel, run: Run)
    requires Ownership(objs, runs) && o < |objs| && !IsActive(objs[o].status)
    requires IsActive(mt.status) && mt.cancel == Some(|runs|)
    requires run.obj == o && Unfinished(run)
    ensures Ownership(objs[o := mt], runs + [run])
  {
    var objs', runs' := objs[o := mt], runs + [run];
    forall r | 0 <= r < |runs'| && Unfinished(runs'[r])
      ensures runs'[r].obj < |objs'| && objs'[runs'[r].obj].cancel == Some(r)
    {
      assert r < |runs| ==> runs'[r] == runs[r];
    }
  }

  /** The unfinished run of an object finishes. */
  lemma OwnershipLost(objs: seq<Tunnel>, runs: seq<Run>, r: nat, mt: Tunnel, run: Run)
    requires Ownership(objs, runs) && r < |runs| && Unfinished(runs[r])
    requires !IsActive(mt.status) && mt.cancel == None
    requires run.obj == runs[r].obj && !Unfinished(run)
    ensures Ownership(objs[runs[r].obj := mt], runs[r := run])
  {
  }

  /** Neither the activity of an object nor the progress of a run changes. */
  lemma OwnershipUnmoved(objs: seq<Tunnel>, runs: seq<Run>, o: nat, mt: Tunnel, r: nat, run: Run)
    requires Ownership(objs, runs) && o < |objs| && r < |runs|
    requires IsActive(mt.status) == IsActive(objs[o].status) && mt.cancel == objs[o].cancel
    requires run.obj == runs[r].obj && Unfinished(run) == Unfinished(runs[r])
    ensures Ownership(objs[o := mt], runs[r := run])
  {
  }

  // -------------------------------------------------------------- effects of steps

  /** A goroutine of run `r` moves without touching shared memory. */
  lemma RunUpdateKeeps(s: Machine, cfg: seq<TunnelConfig>, r: nat, run: Run, s': Machine)
    requires Inv(s, cfg) && r < |s.runs|
    requires run.obj == s.runs[r].obj && run.name == s.runs[r].name && run.tunnel.target == s.runs[r].tunnel.target
    requires Unfinished(run) == Unfinished(s.runs[r])
    requires RunOk(run, s.mem.cancelled[r])
    requires s' == s.(runs := s.runs[r := run], log := s'.log)
    ensures Inv(s', cfg)
  {
    var o := s.runs[r].obj;
    assert s.mem.objs[o := s.mem.objs[o]] == s.mem.objs;
    OwnershipUnmoved(s.mem.objs, s.runs, o, s.mem.objs[o], r, run);
    RunsUpdated(s.runs, s.mem.cancelled, r, run);
  }

  /** A goroutine of run `r` rewrites its object in a locked region. */
  lemma JointUpdateKeeps(s: Machine, cfg: seq<TunnelConfig>, r: nat, mt: Tunnel, run: Run, s': Machine)
    requires Inv(s, cfg) && r < |s.runs|
    requires run.obj == s.runs[r].obj && run.name == s.runs[r].name && run.tunnel.target == s.runs[r].tunnel.target
    requires RunOk(run, s.mem.cancelled[r])
    requires var mt0 := s.mem.objs[run.obj];
             mt.config == mt0.config && mt.ephemeral == mt0.ephemeral && TextOk(mt)
             && (IsActive(mt.status) ==> IsActive(mt0.status))
    requires Ownership(s.mem.objs[run.obj := mt], s.runs[r := run])
    requires |s'.writes| == |s.writes|
    requires s' == s.(mem := s.mem.(objs := s.mem.objs[run.obj := mt]), runs := s.runs[r := run], writes := s'.writes)
    ensures Inv(s', cfg)
  {
    ObjectUpdateKeepsIdentity(s.mem.objs, s.mem.index, s.runs, cfg, run.obj, mt);
    ObjectUpdateKeepsIndexed(s.mem.objs, s.mem.index, run.obj, mt);
    RunsUpdated(s.runs, s.mem.cancelled, r, run);
  }

  /** Contexts are cancelled, nothing else changes. */
  lemma CancellationKeeps(s: Machine, cfg: seq<TunnelConfig>, cancelled: seq<bool>, s': Machine)
    requires Inv(s, cfg)
    requires |cancelled| == |s.mem.cancelled|
    requires forall c | 0 <= c < |s.mem.cancelled| :: s.mem.cancelled[c] ==> cancelled[c]
    requires s' == s.(mem := s.mem.(cancelled := cancelled))
    ensures Inv(s', cfg)
  {
    forall r | 0 <= r < |s.runs|
      ensures RunOk(s.runs[r], cancelled[r])
    {
      TunnelRun.CancelKeepsInv(s.runs[r].tunnel, s.mem.cancelled[r]);
    }
  }

  /** An inactive entry that is not configured leaves the index. */
  lemma RemovalKeeps(s: Machine, cfg: seq<TunnelConfig>, name: string, s': Machine)
    requires Inv(s, cfg) && name in s.mem.index && name !in LastEntry(cfg)
    requires !IsActive(s.mem.objs[s.mem.index[name]].status)
    requires s' == s.(mem := s.mem.(index := s.mem.index - {name}))
    ensures Inv(s', cfg)
  {
  }

  lemma BeginKeeps(s: Machine, cfg: seq<TunnelConfig>, name: string, sshHost: string, sshUser: string)
    requires Inv(s, cfg) && Shape(s) && StartError(s.mem, name) == None
    ensures Inv(BeginRun(s, name, sshHost, sshUser), cfg)
  {
    var s' := BeginRun(s, name, sshHost, sshUser);
    var o := s.mem.index[name];
    var run := s'.runs[|s.runs|];
    ObjectUpdateKeepsIdentity(s.mem.objs, s.mem.index, s.runs, cfg, o, s'.mem.objs[o]);
    ObjectUpdateKeepsIndexed(s.mem.objs, s.mem.index, o, s'.mem.objs[o]);
    OwnershipGained(s.mem.objs, s.runs, o, s'.mem.objs[o], run);
    TunnelRun.InitInv(run.tunnel.target, false);
    assert RunOk(run, false);
    assert Runs(s'.runs, s'.mem.cancelled);
  }

  /** The text of a failed run is not empty and not the not-found sentinel. */
  lemma FailureTextOk(target: TunnelRun.Target, text: string)
    requires TunnelRun.ReportsFailure(target, text)
    ensures text != "" && text != NOT_FOUND_TEXT
  {
    var cause: string :| text == TunnelRun.DialError(target, cause) || text == TunnelRun.ListenError(target, cause);
    assert text[0] == 'u';
  }

  lemma FinishKeeps(s: Machine, cfg: seq<TunnelConfig>, r: nat)
    requires Inv(s, cfg) && Shape(s) && Enabled(s, WorkerFinishes(r))
    ensures Inv(FinishRun(s, r), cfg)
  {
    var s' := FinishRun(s, r);
    var run, o := s.runs[r], s.runs[r].obj;
    assert RunOk(run, s.mem.cancelled[r]);
    if run.tunnel.phase.outcome.Failed? {
      FailureTextOk(run.tunnel.target, run.tunnel.phase.outcome.text);
    }
    RunOkMoved(run, s'.runs[r], s.mem.cancelled[r]);
    OwnershipLost(s.mem.objs, s.runs, r, s'.mem.objs[o], s'.runs[r]);
    JointUpdateKeeps(s, cfg, r, s'.mem.objs[o], s'.runs[r], s');
  }

  /** The case of `StartPromotes` in which the object is still connecting, whichever run made it so. */
  lemma PromotionKeeps(s: Machine, cfg: seq<TunnelConfig>, r: nat)
    requires Inv(s, cfg) && Shape(s) && Enabled(s, StartPromotes(r))
    requires s.mem.objs[s.runs[r].obj].status == Connecting
    ensures Inv(PromoteRun(s, r), cfg)
  {
    var s' := PromoteRun(s, r);
    var o := s.runs[r].obj;
    assert TextOk(s.mem.objs[o]);
    RunOkMoved(s.runs[r], s'.runs[r], s.mem.cancelled[r]);
    OwnershipUnmoved(s.mem.objs, s.runs, o, s'.mem.objs[o], r, s'.runs[r]);
    JointUpdateKeeps(s, cfg, r, s'.mem.objs[o], s'.runs[r], s');
  }

  lemma PromoteKeeps(s: Machine, cfg: seq<TunnelConfig>, r: nat)
    requires Inv(s, cfg) && Shape(s) && Enabled(s, StartPromotes(r))
    ensures Inv(PromoteRun(s, r), cfg)
  {
    if s.mem.objs[s.runs[r].obj].status == Connecting {
      PromotionKeeps(s, cfg, r);
    } else {
      var s' := PromoteRun(s, r);
      RunOkMoved(s.runs[r], s'.runs[r], s.mem.cancelled[r]);
      RunUpdateKeeps(s, cfg, r, s'.runs[r], s');
    }
  }

  lemma RegisterKeeps(s: Machine, cfg: seq<TunnelConfig>, config: TunnelConfig, candidates: seq<string>)
    requires Inv(s, cfg) && Shape(s) && Enabled(s, RegisterCalled(config, candidates))
    ensures Inv(Apply(s, RegisterCalled(config, candidates)), cfg)
  {
    var s' := Apply(s, RegisterCalled(config, candidates));
    var name := Draw(s.mem.index.Keys, candidates);
    if name !in s.mem.index {
      InsertionKeeps(s.mem.objs, s.mem.index, s.runs, cfg, config.(name := name));
    }
  }

  lemma CallbackKeeps(s: Machine, cfg: seq<TunnelConfig>, step: Step)
    requires Inv(s, cfg) && Shape(s) && Enabled(s, step)
    requires step.ConnectingCallback? || step.EndCallback? || step.ConnectedCallback?
    ensures Inv(Apply(s, step), cfg)
  {
    var s' := Apply(s, step);
    RunOkMoved(s.runs[step.r], s'.runs[step.r], s.mem.cancelled[step.r]);
    RunUpdateKeeps(s, cfg, step.r, s'.runs[step.r], s');
  }

  lemma TunnelKeeps(s: Machine, cfg: seq<TunnelConfig>, r: nat, move: TunnelRun.Step)
    requires Inv(s, cfg) && Shape(s) && Enabled(s, TunnelMoves(r, move))
    ensures Inv(Apply(s, TunnelMoves(r, move)), cfg)
  {
    var s' := Apply(s, TunnelMoves(r, move));
    assert RunOk(s.runs[r], s.mem.cancelled[r]);
    TunnelRun.StepKeepsInv(s.runs[r].tunnel, s.mem.cancelled[r], move);
    RunUpdateKeeps(s, cfg, r, s'.runs[r], s');
  }

  lemma StopKeeps(s: Machine, cfg: seq<TunnelConfig>, name: string)
    requires Inv(s, cfg) && Shape(s)
    ensures Inv(Apply(s, StopCalled(name)), cfg)
  {
    var s' := Apply(s, StopCalled(name));
    CancellationKeeps(s, cfg, s'.mem.cancelled, s.(mem := s'.mem));
    if StopSchedulesDelete(s.mem, name) {
      EphemeralIsNotConfigured(s, cfg, name);
    }
  }

  lemma DeleteKeeps(s: Machine, cfg: seq<TunnelConfig>, name: string)
    requires Inv(s, cfg) && Shape(s) && Enabled(s, DeleteFires(name))
    ensures Inv(Apply(s, DeleteFires(name)), cfg)
  {
    var s' := Apply(s, DeleteFires(name));
    if s'.mem != s.mem {
      RemovalKeeps(s, cfg, name, s.(mem := s'.mem));
    }
  }

  lemma UnregisterKeeps(s: Machine, cfg: seq<TunnelConfig>, name: string)
    requires Inv(s, cfg) && Shape(s)
    ensures Inv(Apply(s, UnregisterCalled(name)), cfg)
  {
    if UnregisterError(s.mem, name) == None {
      EphemeralIsNotConfigured(s, cfg, name);
      RemovalKeeps(s, cfg, name, Apply(s, UnregisterCalled(name)));
    }
  }

  lemma BeginOrRefuseKeeps(s: Machine, cfg: seq<TunnelConfig>, step: Step)
    requires Inv(s, cfg) && Shape(s) && step.StartBegins?
    ensures Inv(Apply(s, step), cfg)
  {
    if StartError(s.mem, step.name) == None {
      BeginKeeps(s, cfg, step.name, step.sshHost, step.sshUser);
    }
  }

  lemma StopAllKeeps(s: Machine, cfg: seq<TunnelConfig>)
    requires Inv(s, cfg) && Shape(s)
    ensures Inv(Apply(s, StopAllCalled), cfg)
  {
    CancellationKeeps(s, cfg, StopAll(s.mem).cancelled, Apply(s, StopAllCalled));
  }

  lemma HookKeeps(s: Machine, cfg: seq<TunnelConfig>, installed: bool)
    requires Inv(s, cfg) && Shape(s)
    ensures Inv(Apply(s, HookSet(installed)), cfg)
  {
  }

  /** Every step of every goroutine keeps the invariant. */
  lemma StepKeepsInv(s: Machine, cfg: seq<TunnelConfig>, step: Step)
    requires Inv(s, cfg) && Shape(s) && Enabled(s, step)
    ensures Inv(Apply(s, step), cfg)
  {
    match step
    case StartBegins(_, _, _) => BeginOrRefuseKeeps(s, cfg, step);
    case TunnelMoves(r, move) => TunnelKeeps(s, cfg, r, move);
    case WorkerFinishes(r) => FinishKeeps(s, cfg, r);
    case StartPromotes(r) => PromoteKeeps(s, cfg, r);
    case ConnectingCallback(_) => CallbackKeeps(s, cfg, step);
    case EndCallback(_) => CallbackKeeps(s, cfg, step);
    case ConnectedCallback(_) => CallbackKeeps(s, cfg, step);
    case StopCalled(name) => StopKeeps(s, cfg, name);
    case DeleteFires(name) => DeleteKeeps(s, cfg, name);
    case StopAllCalled => StopAllKeeps(s, cfg);
    case RegisterCalled(config, candidates) => RegisterKeeps(s, cfg, config, candidates);
    case UnregisterCalled(name) => UnregisterKeeps(s, cfg, name);
    case HookSet(installed) => HookKeeps(s, cfg, installed);
  }
}
