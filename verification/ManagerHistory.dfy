/**
 * The two histories the manager's step system leaves behind, the status writes of each object
 * and the callbacks, and how both are accounted for by the runs.
 */
module ManagerHistory {
  import opened Prelude
  import opened ManagerMemory
  import opened ManagerMachine
  import opened ManagerInvariant
  import TunnelRun

  // -------------------------------------------------------------- status writes

  function Current(w: seq<Status>): Status {
    if w == [] then Disconnected else w[|w| - 1]
  }

  predicate Allowed(before: Status, after: Status) {
    match after
    case Connecting => !IsActive(before)
    case Connected => before == Connecting
    case Error => IsActive(before)
    case Disconnected => IsActive(before)
  }

  ghost predicate Lawful(w: seq<Status>) {
    w == [] || (Lawful(w[..|w| - 1]) && Allowed(Current(w[..|w| - 1]), w[|w| - 1]))
  }

  lemma LawfulAppend(w: seq<Status>, x: Status)
    requires Lawful(w) && Allowed(Current(w), x)
    ensures Lawful(w + [x]) && Current(w + [x]) == x
  {
    assert (w + [x])[..|w|] == w;
  }

  ghost predicate WritesOk(objs: seq<Tunnel>, writes: seq<seq<Status>>) {
    && |writes| == |objs|
    && forall o | 0 <= o < |objs| :: Lawful(writes[o]) && Current(writes[o]) == objs[o].status
  }

  lemma WriteKeepsWritesOk(objs: seq<Tunnel>, writes: seq<seq<Status>>, o: nat, mt: Tunnel)
    requires WritesOk(objs, writes) && o < |objs| && Allowed(objs[o].status, mt.status)
    ensures WritesOk(objs[o := mt], Wrote(writes, o, mt.status))
  {
    LawfulAppend(writes[o], mt.status);
  }

  // -------------------------------------------------------------- writes against runs

  function Hits(x: Status): Status -> nat {
    (s: Status) => if s == x then 1 else 0
  }

  /** Whether the run caused a write of `x`: its own begin, its promotion, its end. */
  predicate Caused(run: Run, x: Status) {
    match x
    case Connecting => true
    case Connected => run.promoted.Some?
    case Error => !Unfinished(run) && EndStatus(run.worker.outcome) == Error
    case Disconnected => !Unfinished(run) && EndStatus(run.worker.outcome) == Disconnected
  }

  function CausedOn(o: nat, x: Status): Run -> nat {
    (run: Run) => if run.obj == o && Caused(run, x) then 1 else 0
  }

  /** Every write of a status is the doing of exactly one run. */
  ghost predicate Tally(runs: seq<Run>, writes: seq<seq<Status>>) {
    forall o, x | 0 <= o < |writes| :: Sum(writes[o], Hits(x)) == Sum(runs, CausedOn(o, x))
  }

  lemma TallyBegin(runs: seq<Run>, writes: seq<seq<Status>>, run: Run)
    requires Tally(runs, writes) && run.obj < |writes| && Unfinished(run) && run.promoted == None
    ensures Tally(runs + [run], Wrote(writes, run.obj, Connecting))
  {
    var writes' := Wrote(writes, run.obj, Connecting);
    forall o, x | 0 <= o < |writes'|
      ensures Sum(writes'[o], Hits(x)) == Sum(runs + [run], CausedOn(o, x))
    {
      SumAppend(runs, run, CausedOn(o, x));
      SumAppend(writes[run.obj], Connecting, Hits(x));
    }
  }

  /** A run causes one more write, of status `y`. */
  lemma TallyWrite(runs: seq<Run>, writes: seq<seq<Status>>, r: nat, run: Run, y: Status)
    requires Tally(runs, writes) && r < |runs| && run.obj == runs[r].obj < |writes|
    requires forall x: Status :: Caused(run, x) <==> (Caused(runs[r], x) || x == y)
    requires !Caused(runs[r], y)
    ensures Tally(runs[r := run], Wrote(writes, run.obj, y))
  {
    var writes' := Wrote(writes, run.obj, y);
    forall o, x | 0 <= o < |writes'|
      ensures Sum(writes'[o], Hits(x)) == Sum(runs[r := run], CausedOn(o, x))
    {
      SumUpdate(runs, r, run, CausedOn(o, x));
      SumAppend(writes[run.obj], y, Hits(x));
    }
  }

  /** A run moves without causing a write. */
  lemma TallyQuiet(runs: seq<Run>, writes: seq<seq<Status>>, r: nat, run: Run)
    requires Tally(runs, writes) && r < |runs| && run.obj == runs[r].obj
    requires forall x: Status :: Caused(run, x) <==> Caused(runs[r], x)
    ensures Tally(runs[r := run], writes)
  {
    forall o, x | 0 <= o < |writes|
      ensures Sum(writes[o], Hits(x)) == Sum(runs[r := run], CausedOn(o, x))
    {
      SumUpdate(runs, r, run, CausedOn(o, x));
    }
  }

  /** A new object has no writes and no runs. */
  lemma {:induction false} NoRunsNoTally(runs: seq<Run>, o: nat, x: Status)
    requires forall r | 0 <= r < |runs| :: runs[r].obj != o
    ensures Sum(runs, CausedOn(o, x)) == 0
  {
    if runs != [] {
      NoRunsNoTally(runs[..|runs| - 1], o, x);
    }
  }

  lemma TallyNewObject(objs: seq<Tunnel>, runs: seq<Run>, writes: seq<seq<Status>>)
    requires Tally(runs, writes) && |writes| == |objs| && Named(objs, runs)
    ensures Tally(runs, writes + [[]])
  {
    forall o, x | 0 <= o < |writes + [[]]|
      ensures Sum((writes + [[]])[o], Hits(x)) == Sum(runs, CausedOn(o, x))
    {
      if o == |writes| {
        NoRunsNoTally(runs, o, x);
      }
    }
  }

  // -------------------------------------------------------------- callbacks against runs

  function FiredBy(r: nat, x: Status): Event -> nat {
    (e: Event) => if e.run == r && e.change.status == x then 1 else 0
  }

  /** Whether the callback for the run's write of `x` has run. */
  predicate Announced(run: Run, x: Status) {
    match x
    case Connecting => run.beginHook && run.caller != Notifying
    case Connected => run.promoted == Some(true) && run.caller == Gone
    case Error => run.endHook && run.worker.Exited? && EndStatus(run.worker.outcome) == Error
    case Disconnected => run.endHook && run.worker.Exited? && EndStatus(run.worker.outcome) == Disconnected
  }

  ghost predicate Logged(runs: seq<Run>, log: seq<Event>) {
    forall r, x | 0 <= r < |runs| :: Sum(log, FiredBy(r, x)) == if Announced(runs[r], x) then 1 else 0
  }

  /** The change a run reports when it announces `x`. */
  function ChangeOf(run: Run, x: Status): StatusChange {
    StatusChange(run.name, x, if x == Error && !Unfinished(run) then EndText(run.worker.outcome) else "")
  }

  /** Every callback reports its run truthfully, after the run's Connecting callback. */
  ghost predicate EventOk(runs: seq<Run>, log: seq<Event>, j: nat)
    requires j < |log|
  {
    var e := log[j];
    && e.run < |runs|
    && Announced(runs[e.run], e.change.status)
    && e.change == ChangeOf(runs[e.run], e.change.status)
    && (e.change.status != Connecting && runs[e.run].beginHook ==>
          exists i | 0 <= i < j :: log[i] == Event(e.run, ChangeOf(runs[e.run], Connecting)))
  }

  ghost predicate LogOk(runs: seq<Run>, log: seq<Event>) {
    forall j | 0 <= j < |log| :: EventOk(runs, log, j)
  }

  /** Where the caller is decides whether it has promoted. */
  ghost predicate CallerOk(run: Run) {
    && (run.caller == Announcing ==> run.promoted.Some?)
    && (run.caller == Notifying || run.caller == Sleeping ==> run.promoted == None)
  }

  /** Nothing a run has announced is ever taken back or rewritten. */
  predicate Grows(run: Run, run': Run) {
    && run'.name == run.name && run'.beginHook == run.beginHook
    && (run.caller != Notifying ==> run'.caller != Notifying)
    && (run.caller == Gone ==> run'.caller == Gone && run'.promoted == run.promoted)
    && (run.worker.Exited? ==> run'.worker == run.worker && run'.endHook == run.endHook)
  }

  lemma {:induction false} LogOkGrows(runs: seq<Run>, log: seq<Event>, r: nat, run: Run)
    requires LogOk(runs, log) && r < |runs| && Grows(runs[r], run)
    ensures LogOk(runs[r := run], log)
  {
    var runs' := runs[r := run];
    forall j | 0 <= j < |log|
      ensures EventOk(runs', log, j)
    {
      assert EventOk(runs, log, j);
      assert ChangeOf(run, Connecting) == ChangeOf(runs[r], Connecting);
    }
  }

  /** A run without a new announcement leaves the account of the log unchanged. */
  lemma LoggedQuiet(runs: seq<Run>, log: seq<Event>, r: nat, run: Run)
    requires Logged(runs, log) && r < |runs|
    requires forall x: Status :: Announced(run, x) <==> Announced(runs[r], x)
    ensures Logged(runs[r := run], log)
  {
  }

  lemma LoggedFire(runs: seq<Run>, log: seq<Event>, r: nat, run: Run, y: Status)
    requires Logged(runs, log) && r < |runs|
    requires forall x: Status :: Announced(run, x) <==> (Announced(runs[r], x) || x == y)
    requires !Announced(runs[r], y)
    ensures Logged(runs[r := run], log + [Event(r, ChangeOf(run, y))])
  {
    var e := Event(r, ChangeOf(run, y));
    forall q, x | 0 <= q < |runs|
      ensures Sum(log + [e], FiredBy(q, x)) == if Announced(runs[r := run][q], x) then 1 else 0
    {
      SumAppend(log, e, FiredBy(q, x));
    }
  }

  /** A new run has announced nothing. */
  lemma {:induction false} NothingFired(runs: seq<Run>, log: seq<Event>, n: nat, x: Status)
    requires n <= |log| && LogOk(runs, log)
    ensures Sum(log[..n], FiredBy(|runs|, x)) == 0
  {
    if n > 0 {
      assert EventOk(runs, log, n - 1);
      assert log[..n][..n - 1] == log[..n - 1];
      NothingFired(runs, log, n - 1, x);
    }
  }

  lemma LogBegin(runs: seq<Run>, log: seq<Event>, run: Run)
    requires Logged(runs, log) && LogOk(runs, log)
    requires run.caller == Notifying && run.promoted == None && run.worker == Unspawned
    ensures Logged(runs + [run], log) && LogOk(runs + [run], log)
  {
    forall x: Status
      ensures Sum(log, FiredBy(|runs|, x)) == 0
    {
      NothingFired(runs, log, |log|, x);
      assert log[..|log|] == log;
    }
    var runs' := runs + [run];
    forall j | 0 <= j < |log|
      ensures EventOk(runs', log, j)
    {
      assert EventOk(runs, log, j);
    }
  }

  /** The Connecting callback of a run that has made it is in the log. */
  lemma {:induction false} FindEvent(runs: seq<Run>, log: seq<Event>, n: nat, r: nat, x: Status) returns (i: nat)
    requires n <= |log| && LogOk(runs, log) && Sum(log[..n], FiredBy(r, x)) > 0
    ensures i < n && r < |runs| && log[i] == Event(r, ChangeOf(runs[r], x))
  {
    assert log[..n][..n - 1] == log[..n - 1];
    assert EventOk(runs, log, n - 1);
    if log[n - 1].run == r && log[n - 1].change.status == x {
      i := n - 1;
    } else {
      i := FindEvent(runs, log, n - 1, r, x);
    }
  }

  /** A run announces `y`. */
  lemma LogOkFire(runs: seq<Run>, log: seq<Event>, r: nat, run: Run, y: Status)
    requires LogOk(runs, log) && Logged(runs, log) && r < |runs| && Grows(runs[r], run)
    requires Announced(run, y)
    requires y == Connecting || runs[r].caller != Notifying
    ensures LogOk(runs[r := run], log + [Event(r, ChangeOf(run, y))])
  {
    LogOkGrows(runs, log, r, run);
    var runs', log' := runs[r := run], log + [Event(r, ChangeOf(run, y))];
    if y != Connecting && run.beginHook {
      assert Sum(log, FiredBy(r, Connecting)) == 1;
      assert log[..|log|] == log;
      var i := FindEvent(runs', log, |log|, r, Connecting);
      assert log'[i] == log[i];
    }
    forall j | 0 <= j < |log'|
      ensures EventOk(runs', log', j)
    {
      if j < |log| {
        assert EventOk(runs', log, j);
        assert forall i | 0 <= i < j :: log'[i] == log[i];
      }
    }
  }

  // -------------------------------------------------------------- promotion

  /** The caller has passed the last locked region of `Start`. */
  predicate PastStart(run: Run) {
    run.caller == Announcing || run.caller == Gone
  }

  /** Once its caller has passed the last region, a run that goes on is connected. */
  ghost predicate Landed(objs: seq<Tunnel>, runs: seq<Run>) {
    forall r | 0 <= r < |runs| && Unfinished(runs[r]) && PastStart(runs[r]) ::
      runs[r].obj < |objs| && objs[runs[r].obj].status == Connected
  }

  /** The end of a run, or a write of Connected, keeps every run that goes on connected. */
  lemma LandedWrite(objs: seq<Tunnel>, runs: seq<Run>, mt: Tunnel, r: nat, run: Run)
    requires Ownership(objs, runs) && Landed(objs, runs) && r < |runs| && run.obj == runs[r].obj < |objs|
    requires mt.status == Connected || (Unfinished(runs[r]) && !Unfinished(run))
    ensures Landed(objs[run.obj := mt], runs[r := run])
  {
    if mt.status != Connected {
      assert forall q | 0 <= q < |runs| && Unfinished(runs[q]) && runs[q].obj == run.obj :: q == r;
    }
  }

  // -------------------------------------------------------------- the histories stay lawful

  ghost predicate History(s: Machine) {
    && WritesOk(s.mem.objs, s.writes)
    && Tally(s.runs, s.writes)
    && Logged(s.runs, s.log)
    && LogOk(s.runs, s.log)
    && Landed(s.mem.objs, s.runs)
    && forall r | 0 <= r < |s.runs| :: CallerOk(s.runs[r])
  }

  lemma InitHistory(cfg: seq<TunnelConfig>)
    ensures History(Init(cfg))
  {
  }

  lemma BeginHistory(s: Machine, cfg: seq<TunnelConfig>, name: string, sshHost: string, sshUser: string)
    requires Inv(s, cfg) && Shape(s) && History(s) && StartError(s.mem, name) == None
    ensures History(BeginRun(s, name, sshHost, sshUser))
  {
    var s' := BeginRun(s, name, sshHost, sshUser);
    var o := s.mem.index[name];
    WriteKeepsWritesOk(s.mem.objs, s.writes, o, s'.mem.objs[o]);
    TallyBegin(s.runs, s.writes, s'.runs[|s.runs|]);
    LogBegin(s.runs, s.log, s'.runs[|s.runs|]);
  }

  lemma FinishHistory(s: Machine, r: nat)
    requires Ownership(s.mem.objs, s.runs) && Shape(s) && History(s) && Enabled(s, WorkerFinishes(r))
    ensures History(FinishRun(s, r))
  {
    var s' := FinishRun(s, r);
    var run, run', o := s.runs[r], s'.runs[r], s.runs[r].obj;
    WriteKeepsWritesOk(s.mem.objs, s.writes, o, s'.mem.objs[o]);
    TallyWrite(s.runs, s.writes, r, run', EndStatus(run'.worker.outcome));
    LandedWrite(s.mem.objs, s.runs, s'.mem.objs[o], r, run');
    LoggedQuiet(s.runs, s.log, r, run');
    LogOkGrows(s.runs, s.log, r, run');
  }

  lemma PromoteHistory(s: Machine, r: nat)
    requires Ownership(s.mem.objs, s.runs) && Shape(s) && History(s) && Enabled(s, StartPromotes(r))
    ensures History(PromoteRun(s, r))
  {
    var s' := PromoteRun(s, r);
    var run', o := s'.runs[r], s.runs[r].obj;
    assert CallerOk(s.runs[r]);
    if s.mem.objs[o].status == Connecting {
      WriteKeepsWritesOk(s.mem.objs, s.writes, o, s'.mem.objs[o]);
      TallyWrite(s.runs, s.writes, r, run', Connected);
      LandedWrite(s.mem.objs, s.runs, s'.mem.objs[o], r, run');
    } else {
      TallyQuiet(s.runs, s.writes, r, run');
    }
    LoggedQuiet(s.runs, s.log, r, run');
    LogOkGrows(s.runs, s.log, r, run');
  }

  /** A goroutine of run `r` moves, announcing `y` when `hooked`. */
  lemma CallbackHistory(s: Machine, r: nat, run: Run, hooked: bool, y: Status, s': Machine)
    requires History(s) && r < |s.runs|
    requires run.obj == s.runs[r].obj && Grows(s.runs[r], run) && CallerOk(run)
    requires Unfinished(run) == Unfinished(s.runs[r]) && (PastStart(run) ==> PastStart(s.runs[r]))
    requires forall x: Status :: Caused(run, x) <==> Caused(s.runs[r], x)
    requires forall x: Status :: Announced(run, x) <==> (Announced(s.runs[r], x) || (hooked && x == y))
    requires hooked ==> !Announced(s.runs[r], y) && (y == Connecting || s.runs[r].caller != Notifying)
    requires s' == s.(runs := s.runs[r := run], log := Fire(s.log, hooked, r, ChangeOf(run, y)))
    ensures History(s')
  {
    TallyQuiet(s.runs, s.writes, r, run);
    if hooked {
      LoggedFire(s.runs, s.log, r, run, y);
      LogOkFire(s.runs, s.log, r, run, y);
    } else {
      LoggedQuiet(s.runs, s.log, r, run);
      LogOkGrows(s.runs, s.log, r, run);
    }
  }

  lemma ConnectingHistory(s: Machine, cfg: seq<TunnelConfig>, r: nat)
    requires Inv(s, cfg) && Shape(s) && History(s) && Enabled(s, ConnectingCallback(r))
    ensures History(Apply(s, ConnectingCallback(r)))
  {
    var s' := Apply(s, ConnectingCallback(r));
    assert RunOk(s.runs[r], s.mem.cancelled[r]) && CallerOk(s.runs[r]);
    CallbackHistory(s, r, s'.runs[r], s.runs[r].beginHook, Connecting, s');
  }

  lemma EndHistory(s: Machine, cfg: seq<TunnelConfig>, r: nat)
    requires Inv(s, cfg) && Shape(s) && History(s) && Enabled(s, EndCallback(r))
    ensures History(Apply(s, EndCallback(r)))
  {
    var s' := Apply(s, EndCallback(r));
    assert RunOk(s.runs[r], s.mem.cancelled[r]) && CallerOk(s.runs[r]);
    CallbackHistory(s, r, s'.runs[r], s.runs[r].endHook, EndStatus(s.runs[r].worker.outcome), s');
  }

  lemma ConnectedHistory(s: Machine, cfg: seq<TunnelConfig>, r: nat)
    requires Inv(s, cfg) && Shape(s) && History(s) && Enabled(s, ConnectedCallback(r))
    ensures History(Apply(s, ConnectedCallback(r)))
  {
    var s' := Apply(s, ConnectedCallback(r));
    assert RunOk(s.runs[r], s.mem.cancelled[r]) && CallerOk(s.runs[r]);
    CallbackHistory(s, r, s'.runs[r], s.runs[r].promoted == Some(true), Connected, s');
  }

  lemma TunnelHistory(s: Machine, r: nat, move: TunnelRun.Step)
    requires Shape(s) && History(s) && Enabled(s, TunnelMoves(r, move))
    ensures History(Apply(s, TunnelMoves(r, move)))
  {
    var s' := Apply(s, TunnelMoves(r, move));
    assert CallerOk(s.runs[r]);
    CallbackHistory(s, r, s'.runs[r], false, Connecting, s');
  }

  lemma RegisterHistory(s: Machine, cfg: seq<TunnelConfig>, step: Step)
    requires Inv(s, cfg) && Shape(s) && History(s) && step.RegisterCalled? && Enabled(s, step)
    ensures History(Apply(s, step))
  {
    TallyNewObject(s.mem.objs, s.runs, s.writes);
  }

  lemma ApiStepHistory(s: Machine, step: Step)
    requires Shape(s) && History(s) && Enabled(s, step)
    requires step.StopCalled? || step.DeleteFires? || step.StopAllCalled? || step.UnregisterCalled? || step.HookSet?
    ensures History(Apply(s, step))
  {
  }

  /** Every step keeps both histories lawful and accounted for. */
  lemma StepKeepsHistory(s: Machine, cfg: seq<TunnelConfig>, step: Step)
    requires Inv(s, cfg) && Shape(s) && History(s) && Enabled(s, step)
    ensures History(Apply(s, step))
  {
    match step
    case StartBegins(name, sshHost, sshUser) =>
      if StartError(s.mem, name) == None { BeginHistory(s, cfg, name, sshHost, sshUser); }
    case WorkerFinishes(r) => FinishHistory(s, r);
    case StartPromotes(r) => PromoteHistory(s, r);
    case RegisterCalled(_, _) => RegisterHistory(s, cfg, step);
    case ConnectingCallback(r) => ConnectingHistory(s, cfg, r);
    case EndCallback(r) => EndHistory(s, cfg, r);
    case ConnectedCallback(r) => ConnectedHistory(s, cfg, r);
    case TunnelMoves(r, move) => TunnelHistory(s, r, move);
    case _ => ApiStepHistory(s, step);
  }
}
