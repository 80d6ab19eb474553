/**
 * From a status write to a client's notification queue (internal/tunnel/manager.go,
 * internal/daemon/daemon.go, internal/daemon/client.go): the manager, the subscriber set and one
 * connection running together.  The manager's callback is the daemon's broadcast, so a callback
 * begins a broadcast and returns when that broadcast is done; the write it makes on the watched
 * connection is what that connection's client reads.
 */
module Pipeline {
  import opened Prelude
  import opened ManagerMemory
  import M = ManagerMachine
  import MI = ManagerInvariant
  import MH = ManagerHistory
  import MT = ManagerTheorems
  import S = Subscribers
  import C = RpcClient
  import R = RpcSystem

  const STATUS_CHANGED := "tunnel.statusChanged"

  /** A callback the manager has made: broadcast `b` of the daemon serves callback `b`. */
  datatype Callback = Callback(step: M.Step, event: M.Event, returned: bool)

  /**
   * `link` is the watched connection, `sent` the broadcasts whose Encode call on it succeeded, in
   * order, and `lost` what those reported whose Encode call on it failed.
   */
  datatype State = State(manager: M.Machine, daemon: S.Daemon, calls: seq<Callback>, link: R.System,
                         sent: seq<nat>, lost: seq<M.Event>)

  datatype Step =
    | ManagerMoves(move: M.Step)
    | CallbackBegins(callback: M.Step)
    | CallbackReturns(b: nat)
    | DaemonMoves(action: S.Step)
    | NotifyFails(b: nat)
    | LinkMoves(event: R.Step)

  type Render = M.StatusChange -> string

  /** The daemon installs its callback before anything else happens. */
  ghost function Init(cfg: seq<TunnelConfig>): State {
    State(M.Init(cfg).(mem := NewMemory(cfg).(onChange := true)), S.Init(), [], R.Init(), [], [])
  }

  predicate IsCallback(step: M.Step) {
    step.ConnectingCallback? || step.EndCallback? || step.ConnectedCallback?
  }

  /** What the callback reports. */
  ghost function EventOf(m: M.Machine, step: M.Step): M.Event
    requires M.Shape(m) && IsCallback(step) && M.Enabled(m, step)
  {
    var run := m.runs[step.r];
    M.Event(step.r, match step
      case ConnectingCallback(_) => M.StatusChange(run.name, Connecting, "")
      case ConnectedCallback(_) => M.StatusChange(run.name, Connected, "")
      case EndCallback(_) => M.StatusChange(run.name, M.EndStatus(run.worker.outcome), M.EndText(run.worker.outcome)))
  }

  ghost predicate Shape(p: State) {
    M.Shape(p.manager) && S.Shape(p.daemon) && |p.calls| == |p.daemon.casts|
  }

  // the handler of the watched connection waits for a request, works on one, or has its answer

  predicate Waiting(link: R.System) {
    link.taken == |link.answers| == link.written
  }

  predicate Handling(link: R.System) {
    link.taken == |link.answers| + 1
  }

  predicate Answered(link: R.System) {
    |link.answers| == link.written + 1
  }

  /** The handler of connection `i` is the handler of the link. */
  predicate LinkAllows(link: R.System, i: nat, action: S.Step) {
    match action
    case WantSubscribe(c) => c == i ==> Handling(link)
    case UnlockSubscribe(c) => c == i ==> Answered(link)
    case WantRespond(c) => c == i ==> Answered(link)
    case Respond(c, _) => c == i ==> Answered(link)
    case ReadFails(c) => c == i ==> Waiting(link)
    case _ => true
  }

  /** The daemon's step is a broadcast's Encode call on connection `i`. */
  predicate NotifiesHere(d: S.Daemon, i: nat, action: S.Step) {
    action.Notify? && S.Enabled(d, action) && d.casts[action.b].walk.at == i
  }

  /** `i` is the watched connection. */
  ghost predicate Enabled(p: State, i: nat, step: Step)
    requires Shape(p)
  {
    match step
    case ManagerMoves(move) => !IsCallback(move) && !move.HookSet? && M.Enabled(p.manager, move)
    case CallbackBegins(callback) =>
      IsCallback(callback) && M.Enabled(p.manager, callback) && forall c | c in p.calls :: c.step != callback
    case CallbackReturns(b) =>
      && b < |p.calls| && !p.calls[b].returned && p.daemon.casts[b].walk == S.Done
      && M.Enabled(p.manager, p.calls[b].step)
    case DaemonMoves(action) =>
      !action.NewBroadcast? && S.Enabled(p.daemon, action) && LinkAllows(p.link, i, action)
    case NotifyFails(b) => NotifiesHere(p.daemon, i, S.Notify(b))
    case LinkMoves(event) =>
      && !event.HandlerWrites? && !event.Broadcast? && R.Enabled(p.link, event)
      && (event == R.HandlerTakes ==> S.At(p.daemon, i, S.Serving))
  }

  /** What the daemon's step puts on the watched connection, if anything. */
  function LinkStep(p: State, i: nat, render: Render, action: S.Step): Option<R.Step>
    requires |p.calls| == |p.daemon.casts| && S.Enabled(p.daemon, action)
  {
    if action == S.Respond(i, true) then Some(R.HandlerWrites)
    else if NotifiesHere(p.daemon, i, action) then Some(R.Broadcast(STATUS_CHANGED, render(p.calls[action.b].event.change)))
    else None
  }

  ghost function Apply(p: State, i: nat, render: Render, step: Step): State
    requires Shape(p) && Enabled(p, i, step)
  {
    match step
    case ManagerMoves(move) => p.(manager := M.Apply(p.manager, move))
    case CallbackBegins(callback) =>
      p.(daemon := S.Apply(p.daemon, S.NewBroadcast),
         calls := p.calls + [Callback(callback, EventOf(p.manager, callback), false)])
    case CallbackReturns(b) =>
      p.(manager := M.Apply(p.manager, p.calls[b].step), calls := p.calls[b := p.calls[b].(returned := true)])
    case DaemonMoves(action) =>
      var written := LinkStep(p, i, render, action);
      p.(daemon := S.Apply(p.daemon, action),
         link := if written == None then p.link else R.Apply(p.link, written.value),
         sent := if NotifiesHere(p.daemon, i, action) then p.sent + [action.b] else p.sent)
    case NotifyFails(b) => p.(daemon := S.Apply(p.daemon, S.Notify(b)), lost := p.lost + [p.calls[b].event])
    case LinkMoves(event) => p.(link := R.Apply(p.link, event))
  }

  ghost predicate Execution(cfg: seq<TunnelConfig>, i: nat, render: Render, states: seq<State>, steps: seq<Step>) {
    && |states| == |steps| + 1 && states[0] == Init(cfg)
    && forall l | 0 <= l < |steps| ::
         Shape(states[l]) && Enabled(states[l], i, steps[l]) && states[l + 1] == Apply(states[l], i, render, steps[l])
  }

  // -------------------------------------------------------------- the manager's part

  /** Everything known of the manager, with the callback installed throughout. */
  ghost predicate ManagerOk(m: M.Machine, cfg: seq<TunnelConfig>) {
    && MI.Inv(m, cfg) && M.Shape(m) && MH.History(m)
    && m.mem.onChange && forall r | 0 <= r < |m.runs| :: MT.Hooked(m.runs[r])
  }

  lemma InitManagerOk(cfg: seq<TunnelConfig>)
    ensures ManagerOk(Init(cfg).manager, cfg)
  {
    MI.InitInv(cfg);
    MI.InvShape(M.Init(cfg), cfg);
    MH.InitHistory(cfg);
    assert Init(cfg).manager == M.Apply(M.Init(cfg), M.HookSet(true));
    MI.StepKeepsInv(M.Init(cfg), cfg, M.HookSet(true));
    MH.StepKeepsHistory(M.Init(cfg), cfg, M.HookSet(true));
    MI.InvShape(Init(cfg).manager, cfg);
  }

  lemma ManagerKept(m: M.Machine, cfg: seq<TunnelConfig>, move: M.Step)
    requires ManagerOk(m, cfg) && M.Enabled(m, move) && !move.HookSet?
    ensures ManagerOk(M.Apply(m, move), cfg)
  {
    MI.StepKeepsInv(m, cfg, move);
    MH.StepKeepsHistory(m, cfg, move);
    MI.InvShape(M.Apply(m, move), cfg);
    MT.StepKeepsHooked(m, move);
  }

  /** What no step but the callback itself does to a run in a callback. */
  lemma RunUndisturbed(m: M.Machine, move: M.Step, r: nat)
    requires M.Shape(m) && M.Enabled(m, move) && r < |m.runs| && MI.RunOk(m.runs[r], m.mem.cancelled[r])
    ensures r < |M.Apply(m, move).runs|
    ensures var run, run' := m.runs[r], M.Apply(m, move).runs[r];
            && run'.name == run.name
            && (run.caller == M.Notifying && move != M.ConnectingCallback(r) ==> run'.caller == M.Notifying)
            && (run.caller == M.Announcing && move != M.ConnectedCallback(r) ==> run'.caller == M.Announcing)
            && (run.worker.Reporting? && move != M.EndCallback(r) ==> run'.worker == run.worker)
  {
  }

  /** A callback in progress is disturbed by no other step: it stays due and would report the same. */
  lemma CallbackUndisturbed(m: M.Machine, callback: M.Step, move: M.Step)
    requires M.Shape(m) && MI.Runs(m.runs, m.mem.cancelled)
    requires IsCallback(callback) && M.Enabled(m, callback) && M.Enabled(m, move) && move != callback
    requires M.Shape(M.Apply(m, move))
    ensures M.Enabled(M.Apply(m, move), callback)
    ensures EventOf(M.Apply(m, move), callback) == EventOf(m, callback)
  {
    RunUndisturbed(m, move, callback.r);
  }

  /** With the hook installed, a callback logs what it reports, and no other step logs anything. */
  lemma WhatIsLogged(m: M.Machine, move: M.Step)
    requires M.Shape(m) && M.Enabled(m, move)
    requires IsCallback(move) ==> MT.Hooked(m.runs[move.r]) && MH.CallerOk(m.runs[move.r])
    ensures M.Apply(m, move).log == if IsCallback(move) then m.log + [EventOf(m, move)] else m.log
  {
  }

  // -------------------------------------------------------------- callbacks and broadcasts

  /** A callback that has not returned is still due; one that has returned has a finished broadcast. */
  ghost predicate CallOk(m: M.Machine, call: Callback, cast: S.Broadcast)
    requires M.Shape(m)
  {
    && IsCallback(call.step)
    && if call.returned then cast.walk == S.Done
       else M.Enabled(m, call.step) && call.event == EventOf(m, call.step)
  }

  ghost predicate Matched(m: M.Machine, calls: seq<Callback>, casts: seq<S.Broadcast>) {
    && M.Shape(m) && |calls| == |casts|
    && (forall b | 0 <= b < |calls| :: CallOk(m, calls[b], casts[b]))
    && (forall a, b | 0 <= a < b < |calls| :: calls[a].step != calls[b].step)
  }

  lemma MoveKeepsMatched(m: M.Machine, calls: seq<Callback>, casts: seq<S.Broadcast>, move: M.Step)
    requires Matched(m, calls, casts) && MI.Runs(m.runs, m.mem.cancelled)
    requires M.Enabled(m, move) && !IsCallback(move) && M.Shape(M.Apply(m, move))
    ensures Matched(M.Apply(m, move), calls, casts)
  {
    forall b | 0 <= b < |calls|
      ensures CallOk(M.Apply(m, move), calls[b], casts[b])
    {
      assert CallOk(m, calls[b], casts[b]);
      if !calls[b].returned {
        CallbackUndisturbed(m, calls[b].step, move);
      }
    }
  }

  lemma ReturnKeepsMatched(m: M.Machine, calls: seq<Callback>, casts: seq<S.Broadcast>, b: nat)
    requires Matched(m, calls, casts) && MI.Runs(m.runs, m.mem.cancelled)
    requires b < |calls| && !calls[b].returned && casts[b].walk == S.Done
    requires M.Enabled(m, calls[b].step) && M.Shape(M.Apply(m, calls[b].step))
    ensures Matched(M.Apply(m, calls[b].step), calls[b := calls[b].(returned := true)], casts)
  {
    var calls' := calls[b := calls[b].(returned := true)];
    forall a | 0 <= a < |calls|
      ensures CallOk(M.Apply(m, calls[b].step), calls'[a], casts[a])
    {
      assert CallOk(m, calls[a], casts[a]) && CallOk(m, calls[b], casts[b]);
      if a != b && !calls[a].returned {
        CallbackUndisturbed(m, calls[a].step, calls[b].step);
      }
    }
  }

  lemma BeginKeepsMatched(m: M.Machine, calls: seq<Callback>, casts: seq<S.Broadcast>, callback: M.Step, cast: S.Broadcast)
    requires Matched(m, calls, casts) && IsCallback(callback) && M.Enabled(m, callback)
    requires forall c | c in calls :: c.step != callback
    ensures Matched(m, calls + [Callback(callback, EventOf(m, callback), false)], casts + [cast])
  {
  }

  lemma DoneStays(d: S.Daemon, action: S.Step)
    requires S.Shape(d) && S.Enabled(d, action) && !action.NewBroadcast?
    ensures |S.Apply(d, action).casts| == |d.casts|
    ensures forall b | 0 <= b < |d.casts| && d.casts[b].walk == S.Done :: S.Apply(d, action).casts[b].walk == S.Done
  {
  }

  lemma ActionKeepsMatched(m: M.Machine, calls: seq<Callback>, d: S.Daemon, action: S.Step)
    requires Matched(m, calls, d.casts) && S.Shape(d) && S.Enabled(d, action) && !action.NewBroadcast?
    ensures Matched(m, calls, S.Apply(d, action).casts)
  {
    DoneStays(d, action);
    forall b | 0 <= b < |calls|
      ensures CallOk(m, calls[b], S.Apply(d, action).casts[b])
    {
      assert CallOk(m, calls[b], d.casts[b]);
    }
  }

  // -------------------------------------------------------------- the watched connection's handler

  ghost predicate HandlerOk(d: S.Daemon, link: R.System, i: nat) {
    i < |d.conns| ==>
      && (d.conns[i] in {S.SubscribeWait, S.SubscribeHeld, S.Subscribed} ==> Handling(link) || Answered(link))
      && (d.conns[i] in {S.WriteWait, S.Writing} ==> Answered(link))
  }

  lemma ActionKeepsHandlerOk(d: S.Daemon, link: R.System, i: nat, action: S.Step)
    requires S.Shape(d) && S.Enabled(d, action) && LinkAllows(link, i, action) && HandlerOk(d, link, i)
    ensures action != S.Respond(i, true) ==> HandlerOk(S.Apply(d, action), link, i)
    ensures action == S.Respond(i, true) ==> S.At(S.Apply(d, action), i, S.Serving)
  {
  }

  lemma EventKeepsHandlerOk(d: S.Daemon, link: R.System, i: nat, event: R.Step)
    requires R.DownOk(link) && R.Enabled(link, event) && !event.HandlerWrites? && (event == R.HandlerTakes ==> S.At(d, i, S.Serving))
    requires HandlerOk(d, link, i)
    ensures HandlerOk(d, R.Apply(link, event), i)
  {
  }

  // -------------------------------------------------------------- the invariant

  ghost predicate DaemonOk(d: S.Daemon) {
    S.Inv(d) && S.Shape(d)
  }

  ghost predicate Inv(p: State, cfg: seq<TunnelConfig>, i: nat) {
    && ManagerOk(p.manager, cfg)
    && DaemonOk(p.daemon)
    && R.Inv(p.link)
    && Matched(p.manager, p.calls, p.daemon.casts)
    && HandlerOk(p.daemon, p.link, i)
  }

  lemma InitInv(cfg: seq<TunnelConfig>, i: nat)
    ensures Inv(Init(cfg), cfg, i)
  {
    InitManagerOk(cfg);
    S.InitInv();
    R.InitInv();
  }

  lemma ManagerStepKeepsInv(p: State, cfg: seq<TunnelConfig>, i: nat, render: Render, step: Step)
    requires Inv(p, cfg, i) && Shape(p) && Enabled(p, i, step) && (step.ManagerMoves? || step.CallbackReturns?)
    ensures Inv(Apply(p, i, render, step), cfg, i)
  {
    if step.ManagerMoves? {
      ManagerKept(p.manager, cfg, step.move);
      MoveKeepsMatched(p.manager, p.calls, p.daemon.casts, step.move);
    } else {
      ManagerKept(p.manager, cfg, p.calls[step.b].step);
      ReturnKeepsMatched(p.manager, p.calls, p.daemon.casts, step.b);
    }
  }

  lemma DaemonKept(d: S.Daemon, action: S.Step)
    requires DaemonOk(d) && S.Enabled(d, action)
    ensures DaemonOk(S.Apply(d, action))
  {
    S.StepKeepsInv(d, action);
    S.InvShape(S.Apply(d, action));
  }

  lemma BeginKeepsInv(p: State, cfg: seq<TunnelConfig>, i: nat, render: Render, callback: M.Step)
    requires Inv(p, cfg, i) && Shape(p) && Enabled(p, i, CallbackBegins(callback))
    ensures Inv(Apply(p, i, render, CallbackBegins(callback)), cfg, i)
  {
    DaemonKept(p.daemon, S.NewBroadcast);
    BeginKeepsMatched(p.manager, p.calls, p.daemon.casts, callback, S.Broadcast(S.Wanting, {}));
    ActionKeepsHandlerOk(p.daemon, p.link, i, S.NewBroadcast);
  }

  lemma ActionKeepsLink(p: State, i: nat, render: Render, action: S.Step)
    requires R.Inv(p.link) && Shape(p) && Enabled(p, i, DaemonMoves(action)) && HandlerOk(p.daemon, p.link, i)
    ensures R.Inv(Apply(p, i, render, DaemonMoves(action)).link)
    ensures HandlerOk(S.Apply(p.daemon, action), Apply(p, i, render, DaemonMoves(action)).link, i)
  {
    ActionKeepsHandlerOk(p.daemon, p.link, i, action);
    var written := LinkStep(p, i, render, action);
    if written.Some? {
      R.StepKeepsInv(p.link, written.value);
    }
  }

  lemma ActionKeepsInv(p: State, cfg: seq<TunnelConfig>, i: nat, render: Render, action: S.Step)
    requires Inv(p, cfg, i) && Shape(p) && Enabled(p, i, DaemonMoves(action))
    ensures Inv(Apply(p, i, render, DaemonMoves(action)), cfg, i)
  {
    DaemonKept(p.daemon, action);
    ActionKeepsMatched(p.manager, p.calls, p.daemon, action);
    ActionKeepsLink(p, i, render, action);
  }

  lemma FailureKeepsInv(p: State, cfg: seq<TunnelConfig>, i: nat, render: Render, b: nat)
    requires Inv(p, cfg, i) && Shape(p) && Enabled(p, i, NotifyFails(b))
    ensures Inv(Apply(p, i, render, NotifyFails(b)), cfg, i)
  {
    DaemonKept(p.daemon, S.Notify(b));
    ActionKeepsMatched(p.manager, p.calls, p.daemon, S.Notify(b));
    ActionKeepsHandlerOk(p.daemon, p.link, i, S.Notify(b));
  }

  lemma EventKeepsInv(p: State, cfg: seq<TunnelConfig>, i: nat, render: Render, event: R.Step)
    requires Inv(p, cfg, i) && Shape(p) && Enabled(p, i, LinkMoves(event))
    ensures Inv(Apply(p, i, render, LinkMoves(event)), cfg, i)
  {
    R.StepKeepsInv(p.link, event);
    EventKeepsHandlerOk(p.daemon, p.link, i, event);
  }

  lemma StepKeepsInv(p: State, cfg: seq<TunnelConfig>, i: nat, render: Render, step: Step)
    requires Inv(p, cfg, i) && Shape(p) && Enabled(p, i, step)
    ensures Inv(Apply(p, i, render, step), cfg, i)
  {
    match step
    case ManagerMoves(_) => ManagerStepKeepsInv(p, cfg, i, render, step);
    case CallbackReturns(_) => ManagerStepKeepsInv(p, cfg, i, render, step);
    case CallbackBegins(callback) => BeginKeepsInv(p, cfg, i, render, callback);
    case DaemonMoves(action) => ActionKeepsInv(p, cfg, i, render, action);
    case NotifyFails(b) => FailureKeepsInv(p, cfg, i, render, b);
    case LinkMoves(event) => EventKeepsInv(p, cfg, i, render, event);
  }

  lemma {:induction false} Safety(cfg: seq<TunnelConfig>, i: nat, render: Render, states: seq<State>, steps: seq<Step>, k: nat)
    requires Execution(cfg, i, render, states, steps) && k < |states|
    ensures Inv(states[k], cfg, i) && Shape(states[k])
    decreases k
  {
    if k == 0 {
      InitInv(cfg, i);
    } else {
      Safety(cfg, i, render, states, steps, k - 1);
      StepKeepsInv(states[k - 1], cfg, i, render, steps[k - 1]);
    }
  }

  /** A callback can return as soon as its broadcast is done: nothing else in the manager has to happen first. */
  lemma CallbackCanReturn(cfg: seq<TunnelConfig>, i: nat, render: Render, states: seq<State>, steps: seq<Step>, k: nat, b: nat)
    requires Execution(cfg, i, render, states, steps) && k < |states| && b < |states[k].calls|
    ensures Shape(states[k])
    ensures Enabled(states[k], i, CallbackReturns(b)) <==>
            !states[k].calls[b].returned && states[k].daemon.casts[b].walk == S.Done
  {
    Safety(cfg, i, render, states, steps, k);
    assert CallOk(states[k].manager, states[k].calls[b], states[k].daemon.casts[b]);
  }

  // -------------------------------------------------------------- callbacks get through

  /** Steps that wait for no client and no new work: locks, Encode calls, answers and returns. */
  ghost predicate Internal(p: State, step: Step) {
    match step
    case CallbackReturns(_) => true
    case DaemonMoves(action) => S.Internal(p.daemon, action)
    case LinkMoves(event) => event.HandlerAnswers?
    case _ => false
  }

  /** What the locks let happen, the watched connection's handler lets happen, unless it still owes an answer. */
  lemma ActionOrAnswer(d: S.Daemon, link: R.System, i: nat, action: S.Step)
    requires HandlerOk(d, link, i) && R.DownOk(link) && S.Enabled(d, action) && S.Internal(d, action)
    ensures LinkAllows(link, i, action) || R.Enabled(link, R.HandlerAnswers(C.Result("")))
  {
  }

  lemma SomethingMoves(p: State, cfg: seq<TunnelConfig>, i: nat) returns (step: Step)
    requires Inv(p, cfg, i) && Shape(p) && S.Busy(p.daemon)
    ensures Enabled(p, i, step) && Internal(p, step)
  {
    var action := S.SomebodyMoves(p.daemon);
    ActionOrAnswer(p.daemon, p.link, i, action);
    step := if LinkAllows(p.link, i, action) then DaemonMoves(action) else LinkMoves(R.HandlerAnswers(C.Result("")));
  }

  /**
   * Provided Encode calls return, a callback never hangs: as long as one has not returned, the
   * composed system has a step that waits for no client and no new work.
   */
  lemma CallbackProgress(cfg: seq<TunnelConfig>, i: nat, render: Render, states: seq<State>, steps: seq<Step>, k: nat, b: nat)
    returns (step: Step)
    requires Execution(cfg, i, render, states, steps) && k < |states|
    requires b < |states[k].calls| && !states[k].calls[b].returned
    ensures Shape(states[k]) && Enabled(states[k], i, step) && Internal(states[k], step)
  {
    Safety(cfg, i, render, states, steps, k);
    if states[k].daemon.casts[b].walk == S.Done {
      CallbackCanReturn(cfg, i, render, states, steps, k, b);
      step := CallbackReturns(b);
    } else {
      step := SomethingMoves(states[k], cfg, i);
    }
  }
}
