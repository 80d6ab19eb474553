/** What the manager guarantees over every interleaving of its goroutines. */
module ManagerTheorems {
  import opened Prelude
  import opened ManagerMemory
  import opened ManagerMachine
  import opened ManagerInvariant
  import opened ManagerHistory
  import Config
  import TunnelRun

  // -------------------------------------------------------------- executions

  /**
   * `states` is what the manager goes through when it is built from `cfg` and the goroutines
   * take `steps`.  (`Shape` only makes `Enabled` well defined; `Safety` shows it always holds.)
   */
  ghost predicate Execution(cfg: seq<TunnelConfig>, states: seq<Machine>, steps: seq<Step>) {
    && |states| == |steps| + 1
    && states[0] == Init(cfg)
    && forall i | 0 <= i < |steps| ::
         Shape(states[i]) && Enabled(states[i], steps[i]) && states[i + 1] == Apply(states[i], steps[i])
  }

  ghost predicate Reachable(cfg: seq<TunnelConfig>, s: Machine) {
    exists states, steps :: Execution(cfg, states, steps) && states[|steps|] == s
  }

  /** Every state of every execution satisfies the invariant, and both histories are lawful. */
  lemma {:induction false} Safety(cfg: seq<TunnelConfig>, states: seq<Machine>, steps: seq<Step>, k: nat)
    requires Execution(cfg, states, steps) && k < |states|
    ensures Inv(states[k], cfg) && Shape(states[k]) && History(states[k])
    decreases k
  {
    if k == 0 {
      InitInv(cfg);
      InitHistory(cfg);
    } else {
      Safety(cfg, states, steps, k - 1);
      StepKeepsInv(states[k - 1], cfg, steps[k - 1]);
      StepKeepsHistory(states[k - 1], cfg, steps[k - 1]);
    }
    InvShape(states[k], cfg);
  }

  lemma ReachableIsSafe(cfg: seq<TunnelConfig>, s: Machine)
    requires Reachable(cfg, s)
    ensures Inv(s, cfg) && Shape(s) && History(s)
  {
    var states, steps :| Execution(cfg, states, steps) && states[|steps|] == s;
    Safety(cfg, states, steps, |steps|);
  }

  // -------------------------------------------------------------- one run per active tunnel

  ghost predicate RunsOn(s: Machine, r: nat, o: nat) {
    r < |s.runs| && s.runs[r].obj == o && Unfinished(s.runs[r])
  }

  /**
   * A tunnel object is active exactly when its cancel function is set, and exactly when it has
   * an unfinished run; that run is the only one and is the one the cancel function cancels.
   */
  lemma ActiveMeansOneRun(cfg: seq<TunnelConfig>, s: Machine, o: nat)
    requires Reachable(cfg, s) && o < |s.mem.objs|
    ensures IsActive(s.mem.objs[o].status) <==> s.mem.objs[o].cancel.Some?
    ensures IsActive(s.mem.objs[o].status) <==> exists r: nat :: RunsOn(s, r, o)
    ensures forall r: nat | RunsOn(s, r, o) :: s.mem.objs[o].cancel == Some(r)
    ensures forall r: nat, q: nat | RunsOn(s, r, o) && RunsOn(s, q, o) :: r == q
  {
    ReachableIsSafe(cfg, s);
    if IsActive(s.mem.objs[o].status) {
      assert RunsOn(s, s.mem.objs[o].cancel.value, o);
    }
  }

  /** No deletion orphans a run: its object is still indexed under the name it was started with. */
  lemma UnfinishedRunIsIndexed(cfg: seq<TunnelConfig>, s: Machine, r: nat)
    requires Reachable(cfg, s) && r < |s.runs| && Unfinished(s.runs[r])
    ensures s.runs[r].name in s.mem.index && s.mem.index[s.runs[r].name] == s.runs[r].obj
  {
    ReachableIsSafe(cfg, s);
    assert s.mem.objs[s.runs[r].obj].cancel == Some(r);
  }

  /** Right after `StopAll` the context of every unfinished run is cancelled, and of no finished one anew. */
  lemma StopAllCancelsAllRuns(cfg: seq<TunnelConfig>, s: Machine, r: nat)
    requires Reachable(cfg, s) && r < |s.runs|
    ensures Sound(s.mem) && r < |StopAll(s.mem).cancelled|
    ensures StopAll(s.mem).cancelled[r] <==> s.mem.cancelled[r] || Unfinished(s.runs[r])
  {
    ReachableIsSafe(cfg, s);
    if Unfinished(s.runs[r]) {
      UnfinishedRunIsIndexed(cfg, s, r);
      assert s.mem.objs[s.mem.index[s.runs[r].name]].cancel == Some(r);
    }
  }

  /** `Stop` cancels exactly the unfinished run started under that name. */
  lemma StopCancelsThatRun(cfg: seq<TunnelConfig>, s: Machine, name: string, r: nat)
    requires Reachable(cfg, s) && r < |s.runs|
    ensures Sound(s.mem) && r < |Stop(s.mem, name).cancelled|
    ensures Stop(s.mem, name).cancelled[r] <==>
            s.mem.cancelled[r] || (Unfinished(s.runs[r]) && s.runs[r].name == name)
  {
    ReachableIsSafe(cfg, s);
    StopCancels(s.mem, s.runs, name, r);
  }

  lemma StopCancels(m: Memory, runs: seq<Run>, name: string, r: nat)
    requires Sound(m) && |m.cancelled| == |runs| && r < |runs|
    requires Ownership(m.objs, runs) && Indexed(m.objs, m.index) && Named(m.objs, runs)
    ensures Stop(m, name).cancelled[r] <==> m.cancelled[r] || (Unfinished(runs[r]) && runs[r].name == name)
  {
    if Unfinished(runs[r]) {
      assert m.objs[runs[r].obj].cancel == Some(r);
    }
  }

  // -------------------------------------------------------------- why a run ends Disconnected

  /** The step is a `Stop` of the run's own tunnel, or a `StopAll`, taken while the run is unfinished. */
  ghost predicate Cancels(s: Machine, step: Step, r: nat) {
    && r < |s.runs| && Unfinished(s.runs[r])
    && (step == StopCalled(s.runs[r].name) || step == StopAllCalled)
  }

  lemma OnlyStopsCancel(s: Machine, step: Step, r: nat)
    requires Shape(s) && Ownership(s.mem.objs, s.runs) && Indexed(s.mem.objs, s.mem.index) && Named(s.mem.objs, s.runs)
    requires Enabled(s, step)
    requires r < |Apply(s, step).mem.cancelled| && Apply(s, step).mem.cancelled[r]
    ensures r < |s.runs| && (s.mem.cancelled[r] || Cancels(s, step, r))
  {
    match step
    case StopCalled(name) => StopCancels(s.mem, s.runs, name, r);
    case StopAllCalled =>
    case _ => OthersKeepContexts(s, step, r);
  }

  /** Apart from `Stop` and `StopAll`, a step changes no context and makes at most a fresh one. */
  lemma OthersKeepContexts(s: Machine, step: Step, c: nat)
    requires Shape(s) && Enabled(s, step) && !step.StopCalled? && !step.StopAllCalled?
    ensures |s.mem.cancelled| <= |Apply(s, step).mem.cancelled|
    ensures c < |s.mem.cancelled| ==> Apply(s, step).mem.cancelled[c] == s.mem.cancelled[c]
    ensures |s.mem.cancelled| <= c < |Apply(s, step).mem.cancelled| ==> !Apply(s, step).mem.cancelled[c]
  {
  }

  /** A cancelled context was cancelled by an earlier `Stop` of that tunnel or `StopAll`. */
  lemma {:induction false} CancelledRunWasStopped(cfg: seq<TunnelConfig>, states: seq<Machine>, steps: seq<Step>, k: nat, r: nat)
    returns (j: nat)
    requires Execution(cfg, states, steps) && k < |states|
    requires r < |states[k].mem.cancelled| && states[k].mem.cancelled[r]
    ensures j < k && Cancels(states[j], steps[j], r)
    decreases k
  {
    if k > 0 {
      Safety(cfg, states, steps, k - 1);
      OnlyStopsCancel(states[k - 1], steps[k - 1], r);
      if Cancels(states[k - 1], steps[k - 1], r) {
        j := k - 1;
      } else {
        j := CancelledRunWasStopped(cfg, states, steps, k - 1, r);
      }
    }
  }

  /**
   * A run ends Disconnected only if a `Stop` of its tunnel or a `StopAll` cancelled that very
   * run while it was unfinished; by then every connection it accepted has been released.
   */
  lemma DisconnectedRunWasStopped(cfg: seq<TunnelConfig>, states: seq<Machine>, steps: seq<Step>, k: nat, r: nat)
    returns (j: nat)
    requires Execution(cfg, states, steps) && k < |states| && r < |states[k].runs|
    requires !Unfinished(states[k].runs[r]) && EndStatus(states[k].runs[r].worker.outcome) == Disconnected
    ensures j < k && Cancels(states[j], steps[j], r)
    ensures forall h | h in states[k].runs[r].tunnel.handlers :: TunnelRun.Released(h)
  {
    Safety(cfg, states, steps, k);
    var run := states[k].runs[r];
    assert RunOk(run, states[k].mem.cancelled[r]);
    TunnelRun.ClosedRunReleasesEverything(run.tunnel, states[k].mem.cancelled[r]);
    j := CancelledRunWasStopped(cfg, states, steps, k, r);
  }

  /** A run that ends in Error reports a failure to reach its SSH host or to listen on its own tunnel's local address. */
  lemma FailedRunReportsItsTarget(cfg: seq<TunnelConfig>, s: Machine, r: nat)
    requires Reachable(cfg, s) && r < |s.runs|
    requires !Unfinished(s.runs[r]) && EndStatus(s.runs[r].worker.outcome) == Error
    ensures s.runs[r].obj < |s.mem.objs| && Serves(s.runs[r], s.mem.objs[s.runs[r].obj].config)
    ensures TunnelRun.ReportsFailure(s.runs[r].tunnel.target, EndText(s.runs[r].worker.outcome))
    ensures s.runs[r].tunnel.handlers == []
  {
    ReachableIsSafe(cfg, s);
    assert RunOk(s.runs[r], s.mem.cancelled[r]);
    TunnelRun.FailedRunAcceptedNothing(s.runs[r].tunnel, s.mem.cancelled[r]);
  }

  /** A run whose `Start` call has passed its last region is connected for as long as it goes on. */
  lemma StartedRunIsConnected(cfg: seq<TunnelConfig>, s: Machine, r: nat)
    requires Reachable(cfg, s) && r < |s.runs| && Unfinished(s.runs[r]) && PastStart(s.runs[r])
    ensures s.runs[r].obj < |s.mem.objs| && s.mem.objs[s.runs[r].obj].status == Connected
  {
    ReachableIsSafe(cfg, s);
  }

  /** When `Start` returns, its run is connected or has finished. */
  lemma PromotionSettlesTheRun(cfg: seq<TunnelConfig>, s: Machine, r: nat)
    requires Reachable(cfg, s) && Shape(s) && Enabled(s, StartPromotes(r))
    ensures PastStart(PromoteRun(s, r).runs[r])
    ensures Unfinished(PromoteRun(s, r).runs[r]) ==> PromoteRun(s, r).mem.objs[s.runs[r].obj].status == Connected
  {
    ReachNext(cfg, s, StartPromotes(r));
    if Unfinished(PromoteRun(s, r).runs[r]) {
      StartedRunIsConnected(cfg, PromoteRun(s, r), r);
    }
  }

  /** The only step that takes an object out of activity is the end of its own run. */
  lemma OnlyTheWorkerEnds(s: Machine, step: Step, o: nat)
    requires Shape(s) && Ownership(s.mem.objs, s.runs) && Enabled(s, step) && o < |s.mem.objs|
    requires IsActive(s.mem.objs[o].status)
    requires o < |Apply(s, step).mem.objs| && !IsActive(Apply(s, step).mem.objs[o].status)
    ensures s.mem.objs[o].cancel.Some? && step == WorkerFinishes(s.mem.objs[o].cancel.value)
  {
    match step
    case WorkerFinishes(r) =>
    case StartBegins(_, _, _) =>
    case StartPromotes(_) =>
    case _ =>
  }

  // -------------------------------------------------------------- status writes

  /** The writes of one complete run of a tunnel object. */
  predicate IsCycle(c: seq<Status>) {
    || c == [Connecting, Error]
    || c == [Connecting, Disconnected]
    || c == [Connecting, Connected, Error]
    || c == [Connecting, Connected, Disconnected]
  }

  function Flatten(cs: seq<seq<Status>>): seq<Status> {
    if cs == [] then [] else Flatten(cs[..|cs| - 1]) + cs[|cs| - 1]
  }

  lemma FlattenAppend(cs: seq<seq<Status>>, c: seq<Status>)
    ensures Flatten(cs + [c]) == Flatten(cs) + c
  {
    assert (cs + [c])[..|cs|] == cs;
  }

  /** Complete cycles followed by the beginning of one. */
  lemma {:induction false} LawfulIsCycles(w: seq<Status>) returns (cs: seq<seq<Status>>, tail: seq<Status>)
    requires Lawful(w)
    ensures (forall c | c in cs :: IsCycle(c)) && w == Flatten(cs) + tail
    ensures tail == [] || tail == [Connecting] || tail == [Connecting, Connected]
    ensures if tail == [] then !IsActive(Current(w)) else Current(w) == tail[|tail| - 1]
    decreases |w|
  {
    if w == [] {
      cs, tail := [], [];
    } else {
      var front, x := w[..|w| - 1], w[|w| - 1];
      assert w == front + [x];
      cs, tail := LawfulIsCycles(front);
      assert w == Flatten(cs) + (tail + [x]);
      assert [Connecting] + [x] == [Connecting, x];
      assert [Connecting, Connected] + [x] == [Connecting, Connected, x];
      if IsActive(x) {
        tail := tail + [x];
      } else {
        FlattenAppend(cs, tail + [x]);
        cs, tail := cs + [tail + [x]], [];
      }
    }
  }

  lemma LawfulIsPrefixOfCycles(w: seq<Status>) returns (cs: seq<seq<Status>>)
    requires Lawful(w)
    ensures (forall c | c in cs :: IsCycle(c)) && w <= Flatten(cs)
  {
    var tail;
    cs, tail := LawfulIsCycles(w);
    if tail != [] {
      assert [Connecting] + [Error] == [Connecting, Error];
      assert [Connecting, Connected] + [Error] == [Connecting, Connected, Error];
      FlattenAppend(cs, tail + [Error]);
      cs := cs + [tail + [Error]];
    }
  }

  /**
   * The status writes of a tunnel object, in lock order, are always a prefix of some sequence of
   * cycles Connecting, optionally Connected, then Error or Disconnected.
   */
  lemma WritesAreCycles(cfg: seq<TunnelConfig>, s: Machine, o: nat) returns (cs: seq<seq<Status>>)
    requires Reachable(cfg, s) && o < |s.mem.objs|
    ensures o < |s.writes| && (forall c | c in cs :: IsCycle(c)) && s.writes[o] <= Flatten(cs)
  {
    ReachableIsSafe(cfg, s);
    cs := LawfulIsPrefixOfCycles(s.writes[o]);
  }

  lemma {:induction false} LawfulBalance(w: seq<Status>)
    requires Lawful(w)
    ensures Sum(w, Hits(Connecting)) == Sum(w, Hits(Error)) + Sum(w, Hits(Disconnected)) + if IsActive(Current(w)) then 1 else 0
    ensures Sum(w, Hits(Connected)) <= Sum(w, Hits(Connecting))
    ensures Current(w) == Connecting ==> Sum(w, Hits(Connected)) < Sum(w, Hits(Connecting))
  {
    if w != [] {
      LawfulBalance(w[..|w| - 1]);
    }
  }

  /** Runs begun on an object minus runs ended on it: one while it is active, none otherwise. */
  lemma BegunMinusEnded(cfg: seq<TunnelConfig>, s: Machine, o: nat)
    requires Reachable(cfg, s) && o < |s.mem.objs|
    ensures Sum(s.runs, CausedOn(o, Connecting))
            == Sum(s.runs, CausedOn(o, Error)) + Sum(s.runs, CausedOn(o, Disconnected))
               + if IsActive(s.mem.objs[o].status) then 1 else 0
    ensures Sum(s.runs, CausedOn(o, Connected)) <= Sum(s.runs, CausedOn(o, Connecting))
  {
    ReachableIsSafe(cfg, s);
    LawfulBalance(s.writes[o]);
  }

  // -------------------------------------------------------------- callbacks

  /**
   * With a callback installed when each region read it, a run fires Connecting exactly once as
   * soon as its worker exists, Connected at most once, and its end exactly once when its worker
   * is gone, with the text the worker stored; and no other callback carries its number.
   */
  lemma CallbacksOfARun(cfg: seq<TunnelConfig>, s: Machine, r: nat)
    requires Reachable(cfg, s) && r < |s.runs|
    ensures s.runs[r].beginHook ==>
              Sum(s.log, FiredBy(r, Connecting)) == if s.runs[r].worker == Unspawned then 0 else 1
    ensures Sum(s.log, FiredBy(r, Connected)) <= 1
    ensures Sum(s.log, FiredBy(r, Error)) + Sum(s.log, FiredBy(r, Disconnected))
            == if s.runs[r].worker.Exited? && s.runs[r].endHook then 1 else 0
    ensures forall j | 0 <= j < |s.log| && s.log[j].run == r ::
              s.log[j].change == ChangeOf(s.runs[r], s.log[j].change.status)
  {
    ReachableIsSafe(cfg, s);
    assert RunOk(s.runs[r], s.mem.cancelled[r]);
    forall j | 0 <= j < |s.log| && s.log[j].run == r
      ensures s.log[j].change == ChangeOf(s.runs[r], s.log[j].change.status)
    {
      assert EventOk(s.runs, s.log, j);
    }
    assert Announced(s.runs[r], Connecting) == (s.runs[r].beginHook && s.runs[r].caller != Notifying);
  }

  /** The Connecting callback of a run completes before any other callback of that run fires. */
  lemma ConnectingComesFirst(cfg: seq<TunnelConfig>, s: Machine, j: nat) returns (i: nat)
    requires Reachable(cfg, s) && j < |s.log| && s.log[j].change.status != Connecting
    ensures s.log[j].run < |s.runs|
    ensures s.runs[s.log[j].run].beginHook ==>
              i < j && s.log[i] == Event(s.log[j].run, StatusChange(s.runs[s.log[j].run].name, Connecting, ""))
  {
    ReachableIsSafe(cfg, s);
    assert EventOk(s.runs, s.log, j);
    i := 0;
    if s.runs[s.log[j].run].beginHook {
      i :| 0 <= i < j && s.log[i] == Event(s.log[j].run, ChangeOf(s.runs[s.log[j].run], Connecting));
    }
  }

  /** No goroutine of the run is left, and a callback was installed at each of its regions. */
  predicate Settled(run: Run) {
    && run.caller == Gone && run.worker.Exited?
    && run.beginHook && run.endHook && (run.promoted.Some? ==> run.promoted.value)
  }

  /** Callbacks for object `o` among those of the first `n` runs. */
  function FiredOn(runs: seq<Run>, o: nat, x: Status, n: nat): Event -> nat {
    (e: Event) => if e.run < n && e.run < |runs| && runs[e.run].obj == o && e.change.status == x then 1 else 0
  }

  function AnnouncedOn(o: nat, x: Status): Run -> nat {
    (run: Run) => if run.obj == o && Announced(run, x) then 1 else 0
  }

  function Nothing(): Event -> nat {
    (e: Event) => 0
  }

  lemma {:induction false} SumNothing(log: seq<Event>)
    ensures Sum(log, Nothing()) == 0
  {
    if log != [] {
      SumNothing(log[..|log| - 1]);
    }
  }

  /** Counting callbacks by object is counting announcements by run. */
  lemma {:induction false} CallbacksByObject(runs: seq<Run>, log: seq<Event>, o: nat, x: Status, n: nat)
    requires Logged(runs, log) && n <= |runs|
    ensures Sum(log, FiredOn(runs, o, x, n)) == Sum(runs[..n], AnnouncedOn(o, x))
  {
    if n == 0 {
      SumEqual(log, FiredOn(runs, o, x, 0), Nothing());
      SumNothing(log);
    } else {
      var k := n - 1;
      CallbacksByObject(runs, log, o, x, k);
      assert runs[..n] == runs[..k] + [runs[k]];
      SumAppend(runs[..k], runs[k], AnnouncedOn(o, x));
      if runs[k].obj == o {
        SumSplit(log, FiredOn(runs, o, x, k), FiredBy(k, x), FiredOn(runs, o, x, n));
        assert Sum(log, FiredBy(k, x)) == if Announced(runs[k], x) then 1 else 0;
      } else {
        SumEqual(log, FiredOn(runs, o, x, n), FiredOn(runs, o, x, k));
      }
    }
  }

  lemma SettledRunsMatch(runs: seq<Run>, log: seq<Event>, writes: seq<seq<Status>>, o: nat, x: Status)
    requires Logged(runs, log) && Tally(runs, writes) && o < |writes|
    requires forall r | 0 <= r < |runs| && runs[r].obj == o :: Settled(runs[r])
    requires forall r | 0 <= r < |runs| :: CallerOk(runs[r])
    ensures Sum(log, FiredOn(runs, o, x, |runs|)) == Sum(writes[o], Hits(x))
  {
    CallbacksByObject(runs, log, o, x, |runs|);
    assert runs[..|runs|] == runs;
    forall run | run in runs
      ensures AnnouncedOn(o, x)(run) == CausedOn(o, x)(run)
    {
      var r :| 0 <= r < |runs| && runs[r] == run;
      assert CallerOk(runs[r]);
    }
    SumEqual(runs, AnnouncedOn(o, x), CausedOn(o, x));
  }

  /**
   * Conservation: once the goroutines of a tunnel object's runs are gone, its callbacks and its
   * status writes match one for one, for every status.
   */
  lemma CallbacksMatchWrites(cfg: seq<TunnelConfig>, s: Machine, o: nat, x: Status)
    requires Reachable(cfg, s) && o < |s.writes|
    requires forall r | 0 <= r < |s.runs| && s.runs[r].obj == o :: Settled(s.runs[r])
    ensures Sum(s.log, FiredOn(s.runs, o, x, |s.runs|)) == Sum(s.writes[o], Hits(x))
  {
    ReachableIsSafe(cfg, s);
    SettledRunsMatch(s.runs, s.log, s.writes, o, x);
  }

  /** Every region the run went through found a callback installed. */
  predicate Hooked(run: Run) {
    && run.beginHook
    && (run.promoted.Some? ==> run.promoted.value)
    && (!Unfinished(run) ==> run.endHook)
  }

  lemma StepKeepsHooked(s: Machine, step: Step)
    requires Shape(s) && Enabled(s, step) && s.mem.onChange && !step.HookSet?
    requires forall r | 0 <= r < |s.runs| :: Hooked(s.runs[r])
    ensures Apply(s, step).mem.onChange
    ensures forall r | 0 <= r < |Apply(s, step).runs| :: Hooked(Apply(s, step).runs[r])
  {
  }

  /** The daemon installs its callback first and never changes it. */
  ghost predicate DaemonExecution(cfg: seq<TunnelConfig>, states: seq<Machine>, steps: seq<Step>) {
    && Execution(cfg, states, steps)
    && steps != [] && steps[0] == HookSet(true)
    && forall i | 0 < i < |steps| :: !steps[i].HookSet?
  }

  lemma {:induction false} DaemonRunsAreHooked(cfg: seq<TunnelConfig>, states: seq<Machine>, steps: seq<Step>, k: nat)
    requires DaemonExecution(cfg, states, steps) && 0 < k < |states|
    ensures states[k].mem.onChange
    ensures forall r | 0 <= r < |states[k].runs| :: Hooked(states[k].runs[r])
    decreases k
  {
    if k > 1 {
      DaemonRunsAreHooked(cfg, states, steps, k - 1);
      StepKeepsHooked(states[k - 1], steps[k - 1]);
    }
  }

  /**
   * In the daemon, once the goroutines of a tunnel's runs are gone, every status it ever had was
   * announced exactly as often as it was written.
   */
  lemma DaemonAnnouncesEveryWrite(cfg: seq<TunnelConfig>, states: seq<Machine>, steps: seq<Step>, k: nat, o: nat, x: Status)
    requires DaemonExecution(cfg, states, steps) && 0 < k < |states| && o < |states[k].writes|
    requires forall r | 0 <= r < |states[k].runs| && states[k].runs[r].obj == o ::
               states[k].runs[r].caller == Gone && states[k].runs[r].worker.Exited?
    ensures var s := states[k]; Sum(s.log, FiredOn(s.runs, o, x, |s.runs|)) == Sum(s.writes[o], Hits(x))
  {
    Safety(cfg, states, steps, k);
    DaemonRunsAreHooked(cfg, states, steps, k);
    SettledRunsMatch(states[k].runs, states[k].log, states[k].writes, o, x);
  }

  // -------------------------------------------------------------- who leaves the index

  /** No configured tunnel is ever removed, replaced or reconfigured. */
  lemma ConfiguredStays(cfg: seq<TunnelConfig>, s: Machine, i: nat)
    requires Reachable(cfg, s) && i < |cfg|
    ensures cfg[i].name in s.mem.index && s.mem.index[cfg[i].name] < |s.mem.objs|
    ensures !s.mem.objs[s.mem.index[cfg[i].name]].ephemeral
    ensures exists j: nat :: IsLast(cfg, cfg[i].name, j) && s.mem.objs[s.mem.index[cfg[i].name]].config == cfg[j]
    ensures cfg[i].name !in s.deletes
  {
    ReachableIsSafe(cfg, s);
    LastEntryIsLast(cfg);
    assert cfg[i].name in LastEntry(cfg);
    assert IsLast(cfg, cfg[i].name, LastEntry(cfg)[cfg[i].name]);
  }

  lemma OnlyRemovalsRemove(s: Machine, step: Step, n: string)
    requires Shape(s) && Enabled(s, step) && n in s.mem.index && n !in Apply(s, step).mem.index
    ensures step == DeleteFires(n) || step == UnregisterCalled(n)
    ensures !IsActive(s.mem.objs[s.mem.index[n]].status)
    ensures step == UnregisterCalled(n) ==> s.mem.objs[s.mem.index[n]].ephemeral
    ensures step == DeleteFires(n) ==> n in s.deletes
  {
  }

  /** An entry that a step removes was inactive, ephemeral and not configured, and the step asked for it. */
  lemma OnlyIdleEphemeralsLeave(s: Machine, cfg: seq<TunnelConfig>, step: Step, n: string)
    requires Inv(s, cfg) && Shape(s) && Enabled(s, step)
    requires n in s.mem.index && n !in Apply(s, step).mem.index
    ensures !IsActive(s.mem.objs[s.mem.index[n]].status) && s.mem.objs[s.mem.index[n]].ephemeral
    ensures forall i | 0 <= i < |cfg| :: cfg[i].name != n
    ensures step == DeleteFires(n) || step == UnregisterCalled(n)
  {
    OnlyRemovalsRemove(s, step, n);
    EphemeralIsNotConfigured(s, cfg, n);
    LastEntryIsLast(cfg);
  }

  /** Looking a name up in the index and reading the name back agree, so no two entries share a name. */
  lemma EntriesHaveDistinctNames(cfg: seq<TunnelConfig>, s: Machine, m: string, n: string)
    requires Reachable(cfg, s) && m in s.mem.index && n in s.mem.index
    ensures s.mem.index[m] < |s.mem.objs| && s.mem.objs[s.mem.index[m]].config.name == m
    ensures s.mem.index[m] == s.mem.index[n] ==> m == n
  {
    ReachableIsSafe(cfg, s);
  }

  // -------------------------------------------------------------- index and linear scan

  /**
   * A name the linear scan finds is always in the index too, so falling back to the scan finds
   * nothing more; the two answers agree exactly when the first and the last entry of that name do.
   */
  lemma IndexAgreesWithScan(cfg: seq<TunnelConfig>, s: Machine, name: string, first: nat, last: nat)
    requires Reachable(cfg, s) && Config.IsFirst(cfg, name, first) && IsLast(cfg, name, last)
    ensures Sound(s.mem) && ConfigOf(s.mem, name) != None
    ensures ConfigOf(s.mem, name) == Some(cfg[first]) <==> cfg[first] == cfg[last]
  {
    ReachableIsSafe(cfg, s);
    ConfiguredStays(cfg, s, first);
    var j: nat :| IsLast(cfg, name, j) && s.mem.objs[s.mem.index[name]].config == cfg[j];
    assert j == last;
  }

  /**
   * `Register` makes ten draws and fails exactly when every one is taken; otherwise it adds one
   * idle ephemeral tunnel with what it was asked for, under the first free draw.
   */
  lemma RegisterExact(m: Memory, tc: TunnelConfig, candidates: seq<string>)
    requires |candidates| == 10
    ensures Register(m, tc, candidates).1 == None <==> forall c | c in candidates :: c in m.index
    ensures var (m', name) := Register(m, tc, candidates);
            name.Some? ==>
              && name.value !in m.index
              && (exists i | 0 <= i < 10 :: candidates[i] == name.value && forall j | 0 <= j < i :: candidates[j] in m.index)
              && m'.index.Keys == m.index.Keys + {name.value} && m'.index[name.value] == |m.objs|
              && |m'.objs| == |m.objs| + 1 && m'.objs[..|m.objs|] == m.objs
              && (forall n | n in m.index :: m'.index[n] == m.index[n])
              && m'.cancelled == m.cancelled && m'.onChange == m.onChange
              && var t := m'.objs[|m.objs|];
                 && t.config.name == name.value && t.config.host == tc.host
                 && t.config.remote == tc.remote && t.config.local == tc.local
                 && t.status == Disconnected && t.error == "" && t.ephemeral && t.cancel == None
  {
    var i := DrawIsFirstFree(m.index.Keys, candidates);
    assert forall j | 0 <= j < i :: candidates[j] in m.index;
  }

  // -------------------------------------------------------------- extending executions

  /** One more step extends an execution. */
  lemma Extend(cfg: seq<TunnelConfig>, states: seq<Machine>, steps: seq<Step>, step: Step)
    returns (states': seq<Machine>, steps': seq<Step>)
    requires Execution(cfg, states, steps)
    requires Shape(states[|steps|]) && Enabled(states[|steps|], step)
    ensures Execution(cfg, states', steps') && steps' == steps + [step]
    ensures states' == states + [Apply(states[|steps|], step)]
  {
    steps' := steps + [step];
    states' := states + [Apply(states[|steps|], step)];
    forall i | 0 <= i < |steps'|
      ensures Shape(states'[i]) && Enabled(states'[i], steps'[i]) && states'[i + 1] == Apply(states'[i], steps'[i])
    {
      assert states'[i] == states[i];
      assert i < |steps| ==> steps'[i] == steps[i] && states'[i + 1] == states[i + 1];
    }
  }

  /** A reachable state stays reachable under one more step, with everything known about it. */
  lemma ReachNext(cfg: seq<TunnelConfig>, s: Machine, step: Step)
    requires Reachable(cfg, s) && Shape(s) && Enabled(s, step)
    ensures Reachable(cfg, Apply(s, step)) && Shape(Apply(s, step))
  {
    var states, steps :| Execution(cfg, states, steps) && states[|steps|] == s;
    var states', steps' := Extend(cfg, states, steps, step);
    assert states'[|steps'|] == Apply(s, step);
    ReachableIsSafe(cfg, Apply(s, step));
  }

  lemma InitReachable(cfg: seq<TunnelConfig>)
    ensures Reachable(cfg, Init(cfg)) && Shape(Init(cfg))
  {
    assert Execution(cfg, [Init(cfg)], []);
    var none: seq<Step> := [];
    assert [Init(cfg)][|none|] == Init(cfg);
    InitInv(cfg);
    InvShape(Init(cfg), cfg);
  }
}
