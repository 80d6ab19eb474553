/**
 * The tunnel manager as an interleaved step system.  Each locked region, each callback and each
 * step of a tunnel run is one atomic step; sleeps are arbitrary interleaving.  A `Start` that
 * got past its first region is a `Run`: a caller goroutine, a worker goroutine and the tunnel
 * run the worker executes.  Run `r` owns context `r`.
 */
module ManagerMachine {
  import opened Prelude
  import opened ManagerMemory
  import TunnelRun

  datatype StatusChange = StatusChange(name: string, status: Status, error: string)

  /** The goroutine inside `Start`, after its first locked region. */
  datatype Caller =
    | Notifying   // in the Connecting callback; the worker is spawned after it
    | Sleeping    // before the last region
    | Announcing  // in the Connected callback
    | Gone

  datatype Worker =
    | Unspawned
    | Working
    | Reporting(outcome: TunnelRun.Outcome)  // in the end callback
    | Exited(outcome: TunnelRun.Outcome)

  /**
   * `beginHook` and the payloads of `promoted` and `endHook` record whether a callback was
   * installed when the corresponding locked region read it.
   */
  datatype Run = Run(obj: nat, name: string, caller: Caller, worker: Worker, tunnel: TunnelRun.State,
                     beginHook: bool, promoted: Option<bool>, endHook: bool)

  datatype Event = Event(run: nat, change: StatusChange)

  /**
   * `deletes` holds the names of pending delayed deletes, `log` the callbacks in the order they
   * ran, and `writes[o]` the values written to the status of object `o` in lock order.
   */
  datatype Machine = Machine(mem: Memory, runs: seq<Run>, deletes: multiset<string>, log: seq<Event>,
                             writes: seq<seq<Status>>)

  datatype Step =
    | StartBegins(name: string, sshHost: string, sshUser: string)
    | ConnectingCallback(r: nat)
    | TunnelMoves(r: nat, move: TunnelRun.Step)
    | WorkerFinishes(r: nat)
    | EndCallback(r: nat)
    | StartPromotes(r: nat)
    | ConnectedCallback(r: nat)
    | StopCalled(name: string)
    | DeleteFires(name: string)
    | StopAllCalled
    | RegisterCalled(config: TunnelConfig, candidates: seq<string>)
    | UnregisterCalled(name: string)
    | HookSet(installed: bool)

  function Init(cfg: seq<TunnelConfig>): Machine {
    Machine(NewMemory(cfg), [], multiset{}, [], seq(|cfg|, i => []))
  }

  /** The worker has not yet passed its locked region. */
  predicate Unfinished(run: Run) {
    run.worker == Unspawned || run.worker == Working
  }

  /** The status the worker of a finished run wrote. */
  function EndStatus(outcome: TunnelRun.Outcome): Status {
    if outcome == TunnelRun.Closed then Disconnected else Error
  }

  function EndText(outcome: TunnelRun.Outcome): string {
    match outcome
    case Closed => ""
    case Failed(text) => text
  }

  /** References between the parts of the machine are in range. */
  ghost predicate Shape(s: Machine) {
    && Sound(s.mem)
    && |s.mem.cancelled| == |s.runs|
    && |s.writes| == |s.mem.objs|
    && (forall r | 0 <= r < |s.runs| :: s.runs[r].obj < |s.mem.objs|)
  }

  ghost predicate Enabled(s: Machine, step: Step)
    requires Shape(s)
  {
    match step
    case ConnectingCallback(r) => r < |s.runs| && s.runs[r].caller == Notifying
    case TunnelMoves(r, move) =>
      r < |s.runs| && s.runs[r].worker == Working && TunnelRun.Enabled(s.runs[r].tunnel, s.mem.cancelled[r], move)
    case WorkerFinishes(r) => r < |s.runs| && s.runs[r].worker == Working && s.runs[r].tunnel.phase.Returned?
    case EndCallback(r) => r < |s.runs| && s.runs[r].worker.Reporting?
    case StartPromotes(r) => r < |s.runs| && s.runs[r].caller == Sleeping
    case ConnectedCallback(r) => r < |s.runs| && s.runs[r].caller == Announcing
    case DeleteFires(name) => name in s.deletes
    case RegisterCalled(_, candidates) => |candidates| == NAME_ATTEMPTS
    case _ => true
  }

  // -------------------------------------------------------------- effects

  function Wrote(writes: seq<seq<Status>>, o: nat, status: Status): seq<seq<Status>>
    requires o < |writes|
  {
    writes[o := writes[o] + [status]]
  }

  function Fire(log: seq<Event>, hooked: bool, r: nat, change: StatusChange): seq<Event> {
    if hooked then log + [Event(r, change)] else log
  }

  ghost function BeginRun(s: Machine, name: string, sshHost: string, sshUser: string): Machine
    requires Shape(s)
  {
    if StartError(s.mem, name) != None then s
    else
      var o := s.mem.index[name];
      var tc := s.mem.objs[o].config;
      var target := TunnelRun.Target(sshHost, sshUser, tc.remote, tc.local);
      s.(mem := Begin(s.mem, name),
         runs := s.runs + [Run(o, name, Notifying, Unspawned, TunnelRun.Init(target), s.mem.onChange, None, false)],
         writes := Wrote(s.writes, o, Connecting))
  }

  ghost function FinishRun(s: Machine, r: nat): Machine
    requires Shape(s) && Enabled(s, WorkerFinishes(r))
  {
    var run := s.runs[r];
    var outcome := run.tunnel.phase.outcome;
    s.(mem := Finish(s.mem, run.obj, outcome),
       runs := s.runs[r := run.(worker := Reporting(outcome), endHook := s.mem.onChange)],
       writes := Wrote(s.writes, run.obj, EndStatus(outcome)))
  }

  ghost function PromoteRun(s: Machine, r: nat): Machine
    requires Shape(s) && Enabled(s, StartPromotes(r))
  {
    var run := s.runs[r];
    if s.mem.objs[run.obj].status == Connecting then
      s.(mem := Promote(s.mem, run.obj),
         runs := s.runs[r := run.(caller := Announcing, promoted := Some(s.mem.onChange))],
         writes := Wrote(s.writes, run.obj, Connected))
    else
      s.(runs := s.runs[r := run.(caller := Gone)])
  }

  ghost function Apply(s: Machine, step: Step): Machine
    requires Shape(s) && Enabled(s, step)
  {
    match step
    case StartBegins(name, sshHost, sshUser) => BeginRun(s, name, sshHost, sshUser)
    case ConnectingCallback(r) =>
      var run := s.runs[r];
      s.(runs := s.runs[r := run.(caller := Sleeping, worker := Working)],
         log := Fire(s.log, run.beginHook, r, StatusChange(run.name, Connecting, "")))
    case TunnelMoves(r, move) =>
      var run := s.runs[r];
      s.(runs := s.runs[r := run.(tunnel := TunnelRun.Apply(run.tunnel, s.mem.cancelled[r], move))])
    case WorkerFinishes(r) => FinishRun(s, r)
    case EndCallback(r) =>
      var run := s.runs[r];
      var outcome := run.worker.outcome;
      s.(runs := s.runs[r := run.(worker := Exited(outcome))],
         log := Fire(s.log, run.endHook, r, StatusChange(run.name, EndStatus(outcome), EndText(outcome))))
    case StartPromotes(r) => PromoteRun(s, r)
    case ConnectedCallback(r) =>
      var run := s.runs[r];
      s.(runs := s.runs[r := run.(caller := Gone)],
         log := Fire(s.log, run.promoted == Some(true), r, StatusChange(run.name, Connected, "")))
    case StopCalled(name) =>
      s.(mem := Stop(s.mem, name),
         deletes := if StopSchedulesDelete(s.mem, name) then s.deletes + multiset{name} else s.deletes)
    case DeleteFires(name) =>
      s.(mem := DelayedDelete(s.mem, name), deletes := s.deletes - multiset{name})
    case StopAllCalled => s.(mem := StopAll(s.mem))
    case RegisterCalled(config, candidates) =>
      var (mem, name) := Register(s.mem, config, candidates);
      s.(mem := mem, writes := if name.Some? then s.writes + [[]] else s.writes)
    case UnregisterCalled(name) => s.(mem := Unregister(s.mem, name))
    case HookSet(installed) => s.(mem := s.mem.(onChange := installed))
  }
}
