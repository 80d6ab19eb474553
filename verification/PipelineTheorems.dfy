/**
 * What reaches a client's notification queue: the callbacks the manager made, counted exactly,
 * and in an order that the code promises run by run.
 */
module PipelineTheorems {
  import opened Prelude
  import opened ManagerMemory
  import opened Pipeline
  import M = ManagerMachine
  import MI = ManagerInvariant
  import MH = ManagerHistory
  import MT = ManagerTheorems
  import S = Subscribers
  import C = RpcClient
  import R = RpcSystem

  // -------------------------------------------------------------- the log counts the callbacks that returned

  function IfReturned(c: Callback, f: M.Event -> nat): nat {
    if c.returned then f(c.event) else 0
  }

  function Returned(f: M.Event -> nat): Callback -> nat {
    (c: Callback) => IfReturned(c, f)
  }

  /** However the callbacks are weighed, the log weighs as much as those that have returned. */
  ghost predicate LogCounted(p: State, f: M.Event -> nat) {
    Sum(p.manager.log, f) == Sum(p.calls, Returned(f))
  }

  lemma StepKeepsLogCounted(p: State, cfg: seq<TunnelConfig>, i: nat, render: Render, step: Step, f: M.Event -> nat)
    requires Inv(p, cfg, i) && Shape(p) && Enabled(p, i, step) && LogCounted(p, f)
    ensures LogCounted(Apply(p, i, render, step), f)
  {
    match step
    case ManagerMoves(move) => WhatIsLogged(p.manager, move);
    case CallbackReturns(b) => ReturnKeepsLogCounted(p.manager, p.calls, p.daemon.casts, b, f);
    case CallbackBegins(callback) =>
      SumAppend(p.calls, Callback(callback, EventOf(p.manager, callback), false), Returned(f));
    case _ =>
  }

  lemma ReturnKeepsLogCounted(m: M.Machine, calls: seq<Callback>, casts: seq<S.Broadcast>, b: nat, f: M.Event -> nat)
    requires Matched(m, calls, casts) && b < |calls| && !calls[b].returned
    requires (forall r | 0 <= r < |m.runs| :: MT.Hooked(m.runs[r])) && (forall r | 0 <= r < |m.runs| :: MH.CallerOk(m.runs[r]))
    ensures M.Enabled(m, calls[b].step)
    ensures Sum(m.log, f) == Sum(calls, Returned(f)) ==>
              Sum(M.Apply(m, calls[b].step).log, f) == Sum(calls[b := calls[b].(returned := true)], Returned(f))
  {
    assert CallOk(m, calls[b], casts[b]);
    WhatIsLogged(m, calls[b].step);
    SumAppend(m.log, calls[b].event, f);
    SumUpdate(calls, b, calls[b].(returned := true), Returned(f));
  }

  // -------------------------------------------------------------- the connection carries the broadcasts

  /** The weight of the broadcasts among the first `n` that have written to connection `i`. */
  ghost function Noted(casts: seq<S.Broadcast>, calls: seq<Callback>, i: nat, f: M.Event -> nat, n: nat): nat
    requires n <= |casts| == |calls|
  {
    if n == 0 then 0
    else Noted(casts, calls, i, f, n - 1) + if S.HasNotified(casts[n - 1], i) then f(calls[n - 1].event) else 0
  }

  lemma {:induction false} NotedSame(casts: seq<S.Broadcast>, calls: seq<Callback>, casts': seq<S.Broadcast>, calls': seq<Callback>,
                                     i: nat, f: M.Event -> nat, n: nat)
    requires n <= |casts| == |calls| && n <= |casts'| == |calls'|
    requires forall b | 0 <= b < n :: S.HasNotified(casts'[b], i) == S.HasNotified(casts[b], i) && calls'[b].event == calls[b].event
    ensures Noted(casts', calls', i, f, n) == Noted(casts, calls, i, f, n)
  {
    if n > 0 {
      NotedSame(casts, calls, casts', calls', i, f, n - 1);
    }
  }

  /** Broadcast `b` writes to the connection. */
  lemma {:induction false} NotedMore(casts: seq<S.Broadcast>, calls: seq<Callback>, casts': seq<S.Broadcast>,
                                     i: nat, f: M.Event -> nat, n: nat, b: nat)
    requires b < n <= |casts| == |calls| == |casts'|
    requires !S.HasNotified(casts[b], i) && S.HasNotified(casts'[b], i)
    requires forall a | 0 <= a < n && a != b :: S.HasNotified(casts'[a], i) == S.HasNotified(casts[a], i)
    ensures Noted(casts', calls, i, f, n) == Noted(casts, calls, i, f, n) + f(calls[b].event)
  {
    if b == n - 1 {
      NotedSame(casts, calls, casts', calls, i, f, n - 1);
    } else {
      NotedMore(casts, calls, casts', i, f, n - 1, b);
    }
  }

  /** A broadcast comes to have written to `i` only by its Encode call on `i`. */
  lemma NotedBy(d: S.Daemon, action: S.Step, i: nat, b: nat)
    requires S.Inv(d) && S.Shape(d) && S.Enabled(d, action) && !action.NewBroadcast? && b < |d.casts|
    requires |S.Apply(d, action).casts| == |d.casts|
    ensures var writes := action == S.Notify(b) && d.casts[b].walk.at == i;
            && (S.HasNotified(S.Apply(d, action).casts[b], i) <==> S.HasNotified(d.casts[b], i) || writes)
            && (writes ==> !S.HasNotified(d.casts[b], i))
  {
  }

  function Notice(render: Render, e: M.Event): C.Wire {
    C.NewNotification(STATUS_CHANGED, render(e.change))
  }

  function Weigh(render: Render, g: C.Wire -> nat): M.Event -> nat {
    (e: M.Event) => g(Notice(render, e))
  }

  lemma WeighAt(render: Render, g: C.Wire -> nat, e: M.Event)
    ensures Weigh(render, g)(e) == g(C.NewNotification(STATUS_CHANGED, render(e.change)))
  {
    assert Notice(render, e) == C.NewNotification(STATUS_CHANGED, render(e.change));
  }

  /** However they are weighed, the notifications on the connection and those lost weigh as much as the broadcasts that wrote to it. */
  ghost predicate LinkCounted(p: State, i: nat, render: Render, g: C.Wire -> nat) {
    && |p.calls| == |p.daemon.casts|
    && Sum(C.Notifications(p.link.down), g) + Sum(p.lost, Weigh(render, g))
       == Noted(p.daemon.casts, p.calls, i, Weigh(render, g), |p.calls|)
  }

  /** Responses are no notifications, and only writes add to the connection. */
  lemma LinkNotifications(link: R.System, event: R.Step)
    requires R.Inv(link) && R.Enabled(link, event)
    ensures C.Notifications(R.Apply(link, event).down)
            == C.Notifications(link.down) + if event.Broadcast? && event.verb != "" then [C.NewNotification(event.verb, event.params)] else []
  {
    match event
    case HandlerWrites =>
      R.RequestIdsAreNotEmpty(link, link.written);
      R.NotificationsAppend(link.down, link.answers[link.written]);
    case Broadcast(verb, params) =>
      R.NotificationsAppend(link.down, C.NewNotification(verb, params));
    case _ =>
  }

  /** How a step of the daemon changes the weight of what was written to `i`. */
  lemma NotedStep(d: S.Daemon, calls: seq<Callback>, action: S.Step, i: nat, f: M.Event -> nat)
    requires S.Inv(d) && S.Shape(d) && S.Enabled(d, action) && !action.NewBroadcast? && |calls| == |d.casts|
    ensures |S.Apply(d, action).casts| == |d.casts|
    ensures Noted(S.Apply(d, action).casts, calls, i, f, |calls|)
            == Noted(d.casts, calls, i, f, |calls|)
               + if NotifiesHere(d, i, action) then f(calls[action.b].event) else 0
  {
    var casts', n := S.Apply(d, action).casts, |calls|;
    DoneStays(d, action);
    forall b | 0 <= b < n
      ensures var writes := action == S.Notify(b) && d.casts[b].walk.at == i;
              && (S.HasNotified(casts'[b], i) <==> S.HasNotified(d.casts[b], i) || writes)
              && (writes ==> !S.HasNotified(d.casts[b], i))
    {
      NotedBy(d, action, i, b);
    }
    if NotifiesHere(d, i, action) {
      NotedMore(d.casts, calls, casts', i, f, n, action.b);
    } else {
      NotedSame(d.casts, calls, casts', calls, i, f, n);
    }
  }

  /** What a write adds to the weight of the notifications on the connection. */
  lemma WrittenWeight(link: R.System, event: R.Step, g: C.Wire -> nat)
    requires R.Inv(link) && R.Enabled(link, event) && (event.Broadcast? ==> event.verb != "")
    ensures Sum(C.Notifications(R.Apply(link, event).down), g)
            == Sum(C.Notifications(link.down), g) + if event.Broadcast? then g(C.NewNotification(event.verb, event.params)) else 0
  {
    LinkNotifications(link, event);
    if event.Broadcast? {
      SumAppend(C.Notifications(link.down), C.NewNotification(event.verb, event.params), g);
    }
  }

  lemma ActionWeight(p: State, i: nat, render: Render, action: S.Step, g: C.Wire -> nat)
    requires R.Inv(p.link) && Shape(p) && Enabled(p, i, DaemonMoves(action))
    ensures Sum(C.Notifications(Apply(p, i, render, DaemonMoves(action)).link.down), g)
            == Sum(C.Notifications(p.link.down), g)
               + if NotifiesHere(p.daemon, i, action) then Weigh(render, g)(p.calls[action.b].event) else 0
  {
    var written := LinkStep(p, i, render, action);
    if written.Some? {
      WrittenWeight(p.link, written.value, g);
    }
    if action.Notify? {
      WeighAt(render, g, p.calls[action.b].event);
    }
  }

  lemma ActionKeepsLinkCounted(p: State, i: nat, render: Render, action: S.Step, g: C.Wire -> nat)
    requires S.Inv(p.daemon) && R.Inv(p.link)
    requires Shape(p) && Enabled(p, i, DaemonMoves(action)) && LinkCounted(p, i, render, g)
    ensures LinkCounted(Apply(p, i, render, DaemonMoves(action)), i, render, g)
  {
    NotedStep(p.daemon, p.calls, action, i, Weigh(render, g));
    ActionWeight(p, i, render, action, g);
  }

  lemma FailureKeepsLinkCounted(p: State, i: nat, render: Render, b: nat, g: C.Wire -> nat)
    requires S.Inv(p.daemon) && Shape(p) && Enabled(p, i, NotifyFails(b)) && LinkCounted(p, i, render, g)
    ensures LinkCounted(Apply(p, i, render, NotifyFails(b)), i, render, g)
  {
    NotedStep(p.daemon, p.calls, S.Notify(b), i, Weigh(render, g));
    SumAppend(p.lost, p.calls[b].event, Weigh(render, g));
  }

  lemma BeginKeepsLinkCounted(p: State, i: nat, render: Render, callback: M.Step, g: C.Wire -> nat)
    requires Shape(p) && Enabled(p, i, CallbackBegins(callback)) && LinkCounted(p, i, render, g)
    ensures LinkCounted(Apply(p, i, render, CallbackBegins(callback)), i, render, g)
  {
    var p' := Apply(p, i, render, CallbackBegins(callback));
    NotedSame(p.daemon.casts, p.calls, p'.daemon.casts, p'.calls, i, Weigh(render, g), |p.calls|);
  }

  lemma ReturnKeepsLinkCounted(p: State, i: nat, render: Render, b: nat, g: C.Wire -> nat)
    requires Shape(p) && Enabled(p, i, CallbackReturns(b)) && LinkCounted(p, i, render, g)
    ensures LinkCounted(Apply(p, i, render, CallbackReturns(b)), i, render, g)
  {
    var p' := Apply(p, i, render, CallbackReturns(b));
    NotedSame(p.daemon.casts, p.calls, p'.daemon.casts, p'.calls, i, Weigh(render, g), |p.calls|);
  }

  lemma StepKeepsLinkCounted(p: State, i: nat, render: Render, step: Step, g: C.Wire -> nat)
    requires S.Inv(p.daemon) && R.Inv(p.link)
    requires Shape(p) && Enabled(p, i, step) && LinkCounted(p, i, render, g)
    ensures LinkCounted(Apply(p, i, render, step), i, render, g)
  {
    match step
    case ManagerMoves(_) =>
    case CallbackBegins(callback) => BeginKeepsLinkCounted(p, i, render, callback, g);
    case CallbackReturns(b) => ReturnKeepsLinkCounted(p, i, render, b, g);
    case DaemonMoves(action) => ActionKeepsLinkCounted(p, i, render, action, g);
    case NotifyFails(b) => FailureKeepsLinkCounted(p, i, render, b, g);
    case LinkMoves(event) => WrittenWeight(p.link, event, g);
  }

  lemma CountedStep(cfg: seq<TunnelConfig>, i: nat, render: Render, states: seq<State>, steps: seq<Step>, k: nat,
                    f: M.Event -> nat, g: C.Wire -> nat)
    requires Execution(cfg, i, render, states, steps) && k < |steps|
    ensures LogCounted(states[k], f) ==> LogCounted(states[k + 1], f)
    ensures LinkCounted(states[k], i, render, g) ==> LinkCounted(states[k + 1], i, render, g)
  {
    Safety(cfg, i, render, states, steps, k);
    if LogCounted(states[k], f) {
      StepKeepsLogCounted(states[k], cfg, i, render, steps[k], f);
    }
    if LinkCounted(states[k], i, render, g) {
      StepKeepsLinkCounted(states[k], i, render, steps[k], g);
    }
  }

  lemma {:induction false} Counted(cfg: seq<TunnelConfig>, i: nat, render: Render, states: seq<State>, steps: seq<Step>, k: nat,
                                   f: M.Event -> nat, g: C.Wire -> nat)
    requires Execution(cfg, i, render, states, steps) && k < |states|
    ensures LogCounted(states[k], f) && LinkCounted(states[k], i, render, g)
    decreases k
  {
    if k > 0 {
      Counted(cfg, i, render, states, steps, k - 1, f, g);
      CountedStep(cfg, i, render, states, steps, k - 1, f, g);
    }
  }

  // -------------------------------------------------------------- subscribed throughout

  /** What a step does to the subscriber set. */
  function ActionOf(step: Step): Option<S.Step> {
    match step
    case CallbackBegins(_) => Some(S.NewBroadcast)
    case DaemonMoves(action) => Some(action)
    case NotifyFails(b) => Some(S.Notify(b))
    case _ => None
  }

  lemma DaemonPart(cfg: seq<TunnelConfig>, i: nat, render: Render, states: seq<State>, steps: seq<Step>, k: nat)
    requires Execution(cfg, i, render, states, steps) && k < |steps|
    ensures S.Shape(states[k].daemon)
    ensures var d, d', action := states[k].daemon, states[k + 1].daemon, ActionOf(steps[k]);
            if action == None then d' == d else S.Enabled(d, action.value) && d' == S.Apply(d, action.value)
  {
  }

  /** The connection has left, or it is subscribed and every broadcast that has begun found it. */
  ghost predicate Found(d: S.Daemon, i: nat) {
    && i < |d.conns|
    && (S.HasLeft(d.conns[i]) ||
        (i in d.subscribers && forall b | 0 <= b < |d.casts| && d.casts[b].walk != S.Wanting :: i in d.casts[b].snapshot))
  }

  lemma ActionKeepsFound(d: S.Daemon, action: S.Step, i: nat)
    requires S.Shape(d) && S.Enabled(d, action) && Found(d, i)
    ensures Found(S.Apply(d, action), i)
  {
    if S.HasLeft(d.conns[i]) {
      S.LeavingIsFinal(d, action, i);
    } else {
      S.ListedStays(d, action, i);
    }
  }

  ghost predicate NoneBegun(d: S.Daemon) {
    forall b | 0 <= b < |d.casts| :: d.casts[b].walk == S.Wanting
  }

  lemma ActionKeepsNoneBegun(d: S.Daemon, action: S.Step)
    requires S.Shape(d) && S.Enabled(d, action) && NoneBegun(d) && !action.RLock?
    ensures NoneBegun(S.Apply(d, action))
  {
  }

  lemma FoundOnceInserted(d: S.Daemon, i: nat)
    requires S.Shape(d) && NoneBegun(d) && S.Enabled(d, S.Insert(i))
    ensures Found(S.Apply(d, S.Insert(i)), i)
  {
  }

  /** Connection `i` is inserted at `j`, before any broadcast has taken the read lock. */
  ghost predicate SubscribesFirst(steps: seq<Step>, j: nat, i: nat) {
    && j < |steps| && steps[j] == DaemonMoves(S.Insert(i))
    && forall l | 0 <= l < j && steps[l].DaemonMoves? :: !steps[l].action.RLock?
  }

  lemma {:induction false} NoneBegunYet(cfg: seq<TunnelConfig>, i: nat, render: Render, states: seq<State>, steps: seq<Step>,
                                        j: nat, k: nat)
    requires Execution(cfg, i, render, states, steps) && SubscribesFirst(steps, j, i) && k <= j
    ensures NoneBegun(states[k].daemon)
    decreases k
  {
    if k > 0 {
      NoneBegunYet(cfg, i, render, states, steps, j, k - 1);
      DaemonPart(cfg, i, render, states, steps, k - 1);
      var action := ActionOf(steps[k - 1]);
      if action.Some? {
        ActionKeepsNoneBegun(states[k - 1].daemon, action.value);
      }
    }
  }

  lemma FoundFirst(cfg: seq<TunnelConfig>, i: nat, render: Render, states: seq<State>, steps: seq<Step>, j: nat)
    requires Execution(cfg, i, render, states, steps) && SubscribesFirst(steps, j, i)
    ensures Found(states[j + 1].daemon, i)
  {
    NoneBegunYet(cfg, i, render, states, steps, j, j);
    DaemonPart(cfg, i, render, states, steps, j);
    FoundOnceInserted(states[j].daemon, i);
  }

  lemma FoundStep(cfg: seq<TunnelConfig>, i: nat, render: Render, states: seq<State>, steps: seq<Step>, k: nat)
    requires Execution(cfg, i, render, states, steps) && k < |steps| && Found(states[k].daemon, i)
    ensures Found(states[k + 1].daemon, i)
  {
    DaemonPart(cfg, i, render, states, steps, k);
    var action := ActionOf(steps[k]);
    if action.Some? {
      ActionKeepsFound(states[k].daemon, action.value, i);
    }
  }

  lemma {:induction false} FoundFromThenOn(states: seq<State>, i: nat, j: nat, k: nat)
    requires j <= k < |states| && Found(states[j].daemon, i)
    requires forall l | j <= l < k :: Found(states[l].daemon, i) ==> Found(states[l + 1].daemon, i)
    ensures Found(states[k].daemon, i)
    decreases k
  {
    if j < k {
      FoundFromThenOn(states, i, j, k - 1);
    }
  }

  lemma FoundByAll(cfg: seq<TunnelConfig>, i: nat, render: Render, states: seq<State>, steps: seq<Step>, j: nat, k: nat)
    requires Execution(cfg, i, render, states, steps) && SubscribesFirst(steps, j, i) && j < k < |states|
    ensures Found(states[k].daemon, i)
  {
    FoundFirst(cfg, i, render, states, steps, j);
    forall l | j < l < k && Found(states[l].daemon, i)
      ensures Found(states[l + 1].daemon, i)
    {
      FoundStep(cfg, i, render, states, steps, l);
    }
    FoundFromThenOn(states, i, j + 1, k);
  }

  // -------------------------------------------------------------- room in the queue

  /** A notification is read while the client's queue is full. */
  ghost predicate Drops(p: State, step: Step) {
    step == LinkMoves(R.ClientReads) && R.Drops(p.link, R.ClientReads)
  }

  ghost predicate NoDrops(states: seq<State>, steps: seq<Step>, k: nat) {
    k <= |steps| < |states| && forall l | 0 <= l < k :: !Drops(states[l], steps[l])
  }

  /** The link moves by a step of its own or not at all. */
  lemma LinkPart(p: State, i: nat, render: Render, step: Step)
    returns (event: Option<R.Step>)
    requires Shape(p) && Enabled(p, i, step)
    ensures event.Some? ==> R.Enabled(p.link, event.value) && Apply(p, i, render, step).link == R.Apply(p.link, event.value)
    ensures event == None ==> Apply(p, i, render, step).link == p.link
    ensures event == Some(R.ClientReads) <==> step == LinkMoves(R.ClientReads)
  {
    match step
    case DaemonMoves(action) => event := LinkStep(p, i, render, action);
    case LinkMoves(e) => event := Some(e);
    case _ => event := None;
  }

  lemma DropStep(p: State, i: nat, render: Render, step: Step)
    requires Shape(p) && Enabled(p, i, step) && p.link.read <= |p.link.down|
    ensures var link, link' := p.link, Apply(p, i, render, step).link;
            && link'.read <= |link'.down|
            && (C.Kept(link.client) == R.Seen(link) && !Drops(p, step) ==> C.Kept(link'.client) == R.Seen(link'))
            && |R.Seen(link')| - |C.Kept(link'.client)| == |R.Seen(link)| - |C.Kept(link.client)| + if Drops(p, step) then 1 else 0
  {
    var event := LinkPart(p, i, render, step);
    if event.Some? {
      R.SeenStep(p.link, event.value);
    }
  }

  lemma {:induction false} NothingDropped(cfg: seq<TunnelConfig>, i: nat, render: Render, states: seq<State>, steps: seq<Step>, k: nat)
    requires Execution(cfg, i, render, states, steps) && k < |states|
    ensures states[k].link.read <= |states[k].link.down|
    ensures if NoDrops(states, steps, k) then C.Kept(states[k].link.client) == R.Seen(states[k].link)
            else |C.Kept(states[k].link.client)| < |R.Seen(states[k].link)|
    decreases k
  {
    if k > 0 {
      NothingDropped(cfg, i, render, states, steps, k - 1);
      DropStep(states[k - 1], i, render, steps[k - 1]);
      assert NoDrops(states, steps, k) <==> NoDrops(states, steps, k - 1) && !Drops(states[k - 1], steps[k - 1]);
    }
  }

  // -------------------------------------------------------------- once everything has settled

  /** No goroutine of any run is left. */
  ghost predicate Quiet(m: M.Machine) {
    forall r | 0 <= r < |m.runs| :: m.runs[r].caller == M.Gone && m.runs[r].worker.Exited?
  }

  /** Then no callback is in progress. */
  lemma QuietMeansReturned(m: M.Machine, calls: seq<Callback>, casts: seq<S.Broadcast>, b: nat)
    requires Matched(m, calls, casts) && Quiet(m) && b < |calls|
    ensures calls[b].returned && casts[b].walk == S.Done
  {
    assert CallOk(m, calls[b], casts[b]);
  }

  lemma {:induction false} AllNoted(casts: seq<S.Broadcast>, calls: seq<Callback>, i: nat, f: M.Event -> nat, n: nat)
    requires n <= |casts| == |calls|
    requires forall b | 0 <= b < n :: S.HasNotified(casts[b], i) && calls[b].returned
    ensures Noted(casts, calls, i, f, n) == Sum(calls[..n], Returned(f))
  {
    if n > 0 {
      AllNoted(casts, calls, i, f, n - 1);
      assert calls[..n] == calls[..n - 1] + [calls[n - 1]];
      SumAppend(calls[..n - 1], calls[n - 1], Returned(f));
    }
  }

  lemma AllBroadcastsNoted(p: State, i: nat, f: M.Event -> nat)
    requires Matched(p.manager, p.calls, p.daemon.casts) && Quiet(p.manager)
    requires Found(p.daemon, i) && !S.HasLeft(p.daemon.conns[i])
    ensures Noted(p.daemon.casts, p.calls, i, f, |p.calls|) == Sum(p.calls, Returned(f))
  {
    forall b | 0 <= b < |p.calls|
      ensures S.HasNotified(p.daemon.casts[b], i) && p.calls[b].returned
    {
      QuietMeansReturned(p.manager, p.calls, p.daemon.casts, b);
    }
    AllNoted(p.daemon.casts, p.calls, i, f, |p.calls|);
    assert p.calls[..|p.calls|] == p.calls;
  }

  /** The client subscribed first and is still there, no goroutine of a run is left, and everything written has been read. */
  ghost predicate Settled(states: seq<State>, steps: seq<Step>, i: nat, j: nat, k: nat) {
    && j < k < |states| && SubscribesFirst(steps, j, i)
    && (i < |states[k].daemon.conns| ==> !S.HasLeft(states[k].daemon.conns[i]))
    && Quiet(states[k].manager) && states[k].link.read == |states[k].link.down|
  }

  /** Then the notifications on its connection, and those lost, are the callbacks the manager made. */
  lemma EveryCallbackWritten(cfg: seq<TunnelConfig>, i: nat, render: Render, states: seq<State>, steps: seq<Step>,
                             j: nat, k: nat, g: C.Wire -> nat)
    requires Execution(cfg, i, render, states, steps) && Settled(states, steps, i, j, k)
    ensures Sum(C.Notifications(states[k].link.down), g) + Sum(states[k].lost, Weigh(render, g))
            == Sum(states[k].manager.log, Weigh(render, g))
  {
    Counted(cfg, i, render, states, steps, k, Weigh(render, g), g);
    FoundByAll(cfg, i, render, states, steps, j, k);
    MatchedAt(cfg, i, render, states, steps, k);
    AllBroadcastsNoted(states[k], i, Weigh(render, g));
  }

  function One<T>(): T -> nat {
    (x: T) => 1
  }

  lemma {:induction false} SumOfOnes<T>(s: seq<T>, f: T -> nat)
    requires forall x: T :: f(x) == 1
    ensures Sum(s, f) == |s|
  {
    if s != [] {
      SumOfOnes(s[..|s| - 1], f);
    }
  }

  /**
   * However notifications are weighed, what the client has received weighs as much as all the
   * callbacks the manager ever made, so it has each of them exactly once and nothing else;
   * unless a notification to it failed or was read into a full queue, and then it has fewer.
   */
  lemma ReceivesEveryCallback(cfg: seq<TunnelConfig>, i: nat, render: Render, states: seq<State>, steps: seq<Step>,
                              j: nat, k: nat, g: C.Wire -> nat)
    requires Execution(cfg, i, render, states, steps) && Settled(states, steps, i, j, k)
    ensures if states[k].lost == [] && NoDrops(states, steps, k)
            then Sum(C.Kept(states[k].link.client), g) == Sum(states[k].manager.log, Weigh(render, g))
            else |C.Kept(states[k].link.client)| < |states[k].manager.log|
  {
    var link := states[k].link;
    NothingDropped(cfg, i, render, states, steps, k);
    assert link.down[..link.read] == link.down;
    EveryCallbackWritten(cfg, i, render, states, steps, j, k, g);
    EveryCallbackWritten(cfg, i, render, states, steps, j, k, One());
    SumOfOnes(C.Notifications(link.down), One());
    SumOfOnes(states[k].lost, Weigh(render, One()));
    SumOfOnes(states[k].manager.log, Weigh(render, One()));
  }

  lemma MatchedAt(cfg: seq<TunnelConfig>, i: nat, render: Render, states: seq<State>, steps: seq<Step>, k: nat)
    requires Execution(cfg, i, render, states, steps) && k < |states|
    ensures Matched(states[k].manager, states[k].calls, states[k].daemon.casts)
  {
    Safety(cfg, i, render, states, steps, k);
  }

  // -------------------------------------------------------------- per tunnel name

  /** How often `x` was written to the status of the first `n` objects that are called `name`. */
  ghost function WritesTo(objs: seq<Tunnel>, writes: seq<seq<Status>>, name: string, x: Status, n: nat): nat
    requires n <= |objs| == |writes|
  {
    if n == 0 then 0
    else WritesTo(objs, writes, name, x, n - 1) + if objs[n - 1].config.name == name then Sum(writes[n - 1], MH.Hits(x)) else 0
  }

  function IfAbout(e: M.Event, name: string, x: Status): nat {
    if e.change.name == name && e.change.status == x then 1 else 0
  }

  function AboutName(name: string, x: Status): M.Event -> nat {
    (e: M.Event) => IfAbout(e, name, x)
  }

  function IfAmong(e: M.Event, runs: seq<M.Run>, name: string, x: Status, n: nat): nat {
    if e.run < |runs| && runs[e.run].obj < n then IfAbout(e, name, x) else 0
  }

  /** The same, restricted to runs of the first `n` objects. */
  function Among(runs: seq<M.Run>, name: string, x: Status, n: nat): M.Event -> nat {
    (e: M.Event) => IfAmong(e, runs, name, x, n)
  }

  /** A callback carries the name of the object its run works on. */
  ghost predicate NamesObject(objs: seq<Tunnel>, runs: seq<M.Run>, e: M.Event) {
    e.run < |runs| && runs[e.run].obj < |objs| && e.change.name == objs[runs[e.run].obj].config.name
  }

  lemma {:induction false} NothingAmong(runs: seq<M.Run>, log: seq<M.Event>, name: string, x: Status)
    ensures Sum(log, Among(runs, name, x, 0)) == 0
  {
    if log != [] {
      NothingAmong(runs, log[..|log| - 1], name, x);
    }
  }

  lemma {:induction false} CountByObject(objs: seq<Tunnel>, runs: seq<M.Run>, log: seq<M.Event>, writes: seq<seq<Status>>,
                                         name: string, x: Status, n: nat)
    requires n <= |objs| == |writes|
    requires forall e | e in log :: NamesObject(objs, runs, e)
    requires forall o | 0 <= o < |objs| :: Sum(log, MT.FiredOn(runs, o, x, |runs|)) == Sum(writes[o], MH.Hits(x))
    ensures Sum(log, Among(runs, name, x, n)) == WritesTo(objs, writes, name, x, n)
  {
    if n == 0 {
      NothingAmong(runs, log, name, x);
    } else {
      CountByObject(objs, runs, log, writes, name, x, n - 1);
      assert Sum(log, MT.FiredOn(runs, n - 1, x, |runs|)) == Sum(writes[n - 1], MH.Hits(x));
      if objs[n - 1].config.name == name {
        SumSplit(log, Among(runs, name, x, n - 1), MT.FiredOn(runs, n - 1, x, |runs|), Among(runs, name, x, n));
      } else {
        SumEqual(log, Among(runs, name, x, n), Among(runs, name, x, n - 1));
      }
    }
  }

  lemma QuietRunsMatch(m: M.Machine, cfg: seq<TunnelConfig>, o: nat, x: Status)
    requires ManagerOk(m, cfg) && Quiet(m) && o < |m.writes|
    ensures Sum(m.log, MT.FiredOn(m.runs, o, x, |m.runs|)) == Sum(m.writes[o], MH.Hits(x))
  {
    MT.SettledRunsMatch(m.runs, m.log, m.writes, o, x);
  }

  lemma EventsNameObjects(m: M.Machine, cfg: seq<TunnelConfig>, e: M.Event)
    requires ManagerOk(m, cfg) && e in m.log
    ensures NamesObject(m.mem.objs, m.runs, e)
  {
    var j :| 0 <= j < |m.log| && m.log[j] == e;
    assert MH.EventOk(m.runs, m.log, j);
  }

  lemma LogCountsWrites(m: M.Machine, cfg: seq<TunnelConfig>, name: string, x: Status)
    requires ManagerOk(m, cfg) && Quiet(m)
    ensures |m.writes| == |m.mem.objs|
    ensures Sum(m.log, AboutName(name, x)) == WritesTo(m.mem.objs, m.writes, name, x, |m.mem.objs|)
  {
    forall o | 0 <= o < |m.mem.objs|
      ensures Sum(m.log, MT.FiredOn(m.runs, o, x, |m.runs|)) == Sum(m.writes[o], MH.Hits(x))
    {
      QuietRunsMatch(m, cfg, o, x);
    }
    forall e | e in m.log
      ensures NamesObject(m.mem.objs, m.runs, e)
    {
      EventsNameObjects(m, cfg, e);
    }
    CountByObject(m.mem.objs, m.runs, m.log, m.writes, name, x, |m.mem.objs|);
    SumEqual(m.log, AboutName(name, x), Among(m.runs, name, x, |m.mem.objs|));
  }

  /** How a client reads a notification. */
  type Parse = string -> M.StatusChange

  function IfSays(w: C.Wire, parse: Parse, name: string, x: Status): nat {
    if w.body.Params? && parse(w.body.data).name == name && parse(w.body.data).status == x then 1 else 0
  }

  function Says(parse: Parse, name: string, x: Status): C.Wire -> nat {
    (w: C.Wire) => IfSays(w, parse, name, x)
  }

  /** A notification says what its callback reported. */
  lemma NoticesSay(log: seq<M.Event>, render: Render, parse: Parse, name: string, x: Status)
    requires forall c :: parse(render(c)) == c
    ensures Sum(log, Weigh(render, Says(parse, name, x))) == Sum(log, AboutName(name, x))
  {
    forall e | e in log
      ensures Weigh(render, Says(parse, name, x))(e) == AboutName(name, x)(e)
    {
      assert parse(render(e.change)) == e.change;
      assert Says(parse, name, x)(Notice(render, e)) == IfSays(Notice(render, e), parse, name, x);
    }
    SumEqual(log, Weigh(render, Says(parse, name, x)), AboutName(name, x));
  }

  lemma ManagerAt(cfg: seq<TunnelConfig>, i: nat, render: Render, states: seq<State>, steps: seq<Step>, k: nat)
    requires Execution(cfg, i, render, states, steps) && k < |states|
    ensures ManagerOk(states[k].manager, cfg)
  {
    Safety(cfg, i, render, states, steps, k);
  }

  /**
   * End to end: a client that subscribed first, stayed, missed no notification to an Encode error
   * and never read one into a full queue has received, once everything has settled, a notification that `name` is now `x`
   * exactly as often as `x` was written to the status of tunnels called `name`.
   */
  lemma ClientSeesEveryWrite(cfg: seq<TunnelConfig>, i: nat, render: Render, parse: Parse,
                             states: seq<State>, steps: seq<Step>, j: nat, k: nat, name: string, x: Status)
    requires Execution(cfg, i, render, states, steps) && Settled(states, steps, i, j, k)
    requires states[k].lost == [] && NoDrops(states, steps, k)
    requires forall c :: parse(render(c)) == c
    ensures var m := states[k].manager;
            && |m.writes| == |m.mem.objs|
            && Sum(C.Kept(states[k].link.client), Says(parse, name, x)) == WritesTo(m.mem.objs, m.writes, name, x, |m.mem.objs|)
  {
    var m := states[k].manager;
    ManagerAt(cfg, i, render, states, steps, k);
    ReceivesEveryCallback(cfg, i, render, states, steps, j, k, Says(parse, name, x));
    NoticesSay(m.log, render, parse, name, x);
    LogCountsWrites(m, cfg, name, x);
  }

  // -------------------------------------------------------------- the order in which a run is reported

  /** What `second` reports is the beginning of the run that `first` reports something later of. */
  predicate Overtaken(first: M.Event, second: M.Event) {
    first.run == second.run && first.change.status != Connecting && second.change.status == Connecting
  }

  /** Each callback reports its own run, and one that reports more than the beginning finds the run begun. */
  ghost predicate CallTrue(m: M.Machine, call: Callback) {
    && IsCallback(call.step) && call.event.run == call.step.r < |m.runs|
    && (call.event.change.status == Connecting <==> call.step.ConnectingCallback?)
    && (call.step.ConnectingCallback? || m.runs[call.step.r].caller != M.Notifying)
  }

  ghost predicate CallsTrue(m: M.Machine, calls: seq<Callback>) {
    forall b | 0 <= b < |calls| :: CallTrue(m, calls[b])
  }

  lemma BegunStays(m: M.Machine, move: M.Step, r: nat)
    requires M.Shape(m) && M.Enabled(m, move) && r < |m.runs|
    ensures r < |M.Apply(m, move).runs|
    ensures m.runs[r].caller != M.Notifying ==> M.Apply(m, move).runs[r].caller != M.Notifying
  {
  }

  lemma MoveKeepsCallsTrue(m: M.Machine, calls: seq<Callback>, move: M.Step)
    requires M.Shape(m) && M.Enabled(m, move) && CallsTrue(m, calls)
    ensures CallsTrue(M.Apply(m, move), calls)
  {
    forall b | 0 <= b < |calls|
      ensures CallTrue(M.Apply(m, move), calls[b])
    {
      assert CallTrue(m, calls[b]);
      BegunStays(m, move, calls[b].step.r);
    }
  }

  lemma NewCallTrue(m: M.Machine, callback: M.Step)
    requires M.Shape(m) && MI.Runs(m.runs, m.mem.cancelled) && IsCallback(callback) && M.Enabled(m, callback)
    ensures CallTrue(m, Callback(callback, EventOf(m, callback), false))
  {
    assert MI.RunOk(m.runs[callback.r], m.mem.cancelled[callback.r]);
  }

  /** A broadcast still at work is overtaken by no callback that has begun. */
  lemma NotOvertaken(m: M.Machine, calls: seq<Callback>, casts: seq<S.Broadcast>, a: nat, c: nat)
    requires Matched(m, calls, casts) && CallsTrue(m, calls) && a < |calls| && c < |calls| && casts[c].walk != S.Done
    ensures !Overtaken(calls[a].event, calls[c].event)
  {
    assert CallTrue(m, calls[a]) && CallTrue(m, calls[c]) && CallOk(m, calls[c], casts[c]);
  }

  /** Different callbacks, and no run's beginning after something later of that run. */
  ghost predicate InOrder(calls: seq<Callback>, labels: seq<nat>) {
    && (forall x | 0 <= x < |labels| :: labels[x] < |calls|)
    && (forall x, y | 0 <= x < y < |labels| ::
          labels[x] != labels[y] && !Overtaken(calls[labels[x]].event, calls[labels[y]].event))
  }

  function Notices(calls: seq<Callback>, render: Render, labels: seq<nat>): seq<C.Wire>
    requires forall x | 0 <= x < |labels| :: labels[x] < |calls|
  {
    seq(|labels|, x requires 0 <= x < |labels| => Notice(render, calls[labels[x]].event))
  }

  /** What is on the watched connection: the broadcasts sent, in order. */
  ghost predicate SentOk(p: State, i: nat, render: Render) {
    && |p.calls| == |p.daemon.casts| && CallsTrue(p.manager, p.calls)
    && InOrder(p.calls, p.sent)
    && (forall x | 0 <= x < |p.sent| :: S.HasNotified(p.daemon.casts[p.sent[x]], i))
    && C.Notifications(p.link.down) == Notices(p.calls, render, p.sent)
  }

  lemma NoticesAppend(calls: seq<Callback>, render: Render, labels: seq<nat>, b: nat)
    requires (forall x | 0 <= x < |labels| :: labels[x] < |calls|) && b < |calls|
    ensures Notices(calls, render, labels + [b]) == Notices(calls, render, labels) + [Notice(render, calls[b].event)]
  {
  }

  lemma SendKeepsOrder(p: State, i: nat, render: Render, c: nat)
    requires Matched(p.manager, p.calls, p.daemon.casts) && SentOk(p, i, render)
    requires c < |p.calls| && p.daemon.casts[c].walk != S.Done && !S.HasNotified(p.daemon.casts[c], i)
    ensures InOrder(p.calls, p.sent + [c])
  {
    forall x | 0 <= x < |p.sent|
      ensures p.sent[x] != c && !Overtaken(p.calls[p.sent[x]].event, p.calls[c].event)
    {
      NotOvertaken(p.manager, p.calls, p.daemon.casts, p.sent[x], c);
    }
  }

  /** A broadcast that has written to `i` has written to it for good. */
  lemma NotedStays(d: S.Daemon, action: S.Step, i: nat, sent: seq<nat>)
    requires S.Inv(d) && S.Shape(d) && S.Enabled(d, action) && !action.NewBroadcast?
    requires forall x | 0 <= x < |sent| :: sent[x] < |d.casts| && S.HasNotified(d.casts[sent[x]], i)
    ensures |S.Apply(d, action).casts| == |d.casts|
    ensures forall x | 0 <= x < |sent| :: S.HasNotified(S.Apply(d, action).casts[sent[x]], i)
    ensures NotifiesHere(d, i, action) ==>
              !S.HasNotified(d.casts[action.b], i) && S.HasNotified(S.Apply(d, action).casts[action.b], i)
  {
    DoneStays(d, action);
    forall b | 0 <= b < |d.casts|
      ensures var writes := action == S.Notify(b) && d.casts[b].walk.at == i;
              && (S.HasNotified(S.Apply(d, action).casts[b], i) <==> S.HasNotified(d.casts[b], i) || writes)
              && (writes ==> !S.HasNotified(d.casts[b], i))
    {
      NotedBy(d, action, i, b);
    }
  }

  lemma ActionOnLink(p: State, i: nat, render: Render, action: S.Step)
    requires R.Inv(p.link) && Shape(p) && Enabled(p, i, DaemonMoves(action))
    ensures C.Notifications(Apply(p, i, render, DaemonMoves(action)).link.down)
            == C.Notifications(p.link.down)
               + if NotifiesHere(p.daemon, i, action) then [Notice(render, p.calls[action.b].event)] else []
  {
    var written := LinkStep(p, i, render, action);
    if written.Some? {
      LinkNotifications(p.link, written.value);
    }
  }

  lemma ActionKeepsSentOk(p: State, i: nat, render: Render, action: S.Step)
    requires S.Inv(p.daemon) && R.Inv(p.link) && Matched(p.manager, p.calls, p.daemon.casts)
    requires Shape(p) && Enabled(p, i, DaemonMoves(action)) && SentOk(p, i, render)
    ensures SentOk(Apply(p, i, render, DaemonMoves(action)), i, render)
  {
    NotedStays(p.daemon, action, i, p.sent);
    ActionOnLink(p, i, render, action);
    if NotifiesHere(p.daemon, i, action) {
      SendKeepsOrder(p, i, render, action.b);
      NoticesAppend(p.calls, render, p.sent, action.b);
    }
  }

  lemma BeginKeepsSentOk(p: State, i: nat, render: Render, callback: M.Step)
    requires MI.Runs(p.manager.runs, p.manager.mem.cancelled)
    requires Shape(p) && Enabled(p, i, CallbackBegins(callback)) && SentOk(p, i, render)
    ensures SentOk(Apply(p, i, render, CallbackBegins(callback)), i, render)
  {
    NewCallTrue(p.manager, callback);
    var p' := Apply(p, i, render, CallbackBegins(callback));
    assert Notices(p'.calls, render, p.sent) == Notices(p.calls, render, p.sent);
  }

  lemma ReturnKeepsSentOk(p: State, i: nat, render: Render, b: nat)
    requires Shape(p) && Enabled(p, i, CallbackReturns(b)) && SentOk(p, i, render)
    ensures SentOk(Apply(p, i, render, CallbackReturns(b)), i, render)
  {
    MoveKeepsCallsTrue(p.manager, p.calls, p.calls[b].step);
    var p' := Apply(p, i, render, CallbackReturns(b));
    assert Notices(p'.calls, render, p.sent) == Notices(p.calls, render, p.sent);
  }

  lemma StepKeepsSentOk(p: State, i: nat, render: Render, step: Step)
    requires MI.Runs(p.manager.runs, p.manager.mem.cancelled)
    requires S.Inv(p.daemon) && R.Inv(p.link) && Matched(p.manager, p.calls, p.daemon.casts)
    requires Shape(p) && Enabled(p, i, step) && SentOk(p, i, render)
    ensures SentOk(Apply(p, i, render, step), i, render)
  {
    match step
    case ManagerMoves(move) => MoveKeepsCallsTrue(p.manager, p.calls, move);
    case CallbackBegins(callback) => BeginKeepsSentOk(p, i, render, callback);
    case CallbackReturns(b) => ReturnKeepsSentOk(p, i, render, b);
    case DaemonMoves(action) => ActionKeepsSentOk(p, i, render, action);
    case NotifyFails(b) => NotedStays(p.daemon, S.Notify(b), i, p.sent);
    case LinkMoves(event) => LinkNotifications(p.link, event);
  }

  lemma SentStep(cfg: seq<TunnelConfig>, i: nat, render: Render, states: seq<State>, steps: seq<Step>, k: nat)
    requires Execution(cfg, i, render, states, steps) && k < |steps| && SentOk(states[k], i, render)
    ensures SentOk(states[k + 1], i, render)
  {
    Safety(cfg, i, render, states, steps, k);
    StepKeepsSentOk(states[k], i, render, steps[k]);
  }

  lemma {:induction false} SentInOrder(cfg: seq<TunnelConfig>, i: nat, render: Render, states: seq<State>, steps: seq<Step>, k: nat)
    requires Execution(cfg, i, render, states, steps) && k < |states|
    ensures SentOk(states[k], i, render)
    decreases k
  {
    if k > 0 {
      SentInOrder(cfg, i, render, states, steps, k - 1);
      SentStep(cfg, i, render, states, steps, k - 1);
    }
  }

  lemma {:induction false} KeptWithinSeen(cfg: seq<TunnelConfig>, i: nat, render: Render, states: seq<State>, steps: seq<Step>, k: nat)
    requires Execution(cfg, i, render, states, steps) && k < |states|
    ensures states[k].link.read <= |states[k].link.down|
    ensures Subsequence(C.Kept(states[k].link.client), R.Seen(states[k].link))
    decreases k
  {
    if k > 0 {
      KeptWithinSeen(cfg, i, render, states, steps, k - 1);
      var event := LinkPart(states[k - 1], i, render, steps[k - 1]);
      if event.Some? {
        R.StepKeepsWithin(states[k - 1].link, event.value);
      }
    }
  }

  lemma OrderAppend(calls: seq<Callback>, sent: seq<nat>, labels: seq<nat>)
    requires sent != [] && InOrder(calls, sent) && InOrder(calls, labels)
    requires forall x | x in labels :: x in sent[..|sent| - 1]
    ensures InOrder(calls, labels + [sent[|sent| - 1]])
  {
    var c := sent[|sent| - 1];
    forall x | 0 <= x < |labels|
      ensures labels[x] != c && !Overtaken(calls[labels[x]].event, calls[c].event)
    {
      assert labels[x] in labels;
      var y :| 0 <= y < |sent| - 1 && sent[y] == labels[x];
    }
  }

  lemma NoticesSplit(calls: seq<Callback>, render: Render, sent: seq<nat>)
    requires sent != [] && InOrder(calls, sent)
    ensures var n := |sent| - 1;
            && InOrder(calls, sent[..n])
            && |Notices(calls, render, sent)| == n + 1
            && Notices(calls, render, sent)[..n] == Notices(calls, render, sent[..n])
            && Notices(calls, render, sent)[n] == Notice(render, calls[sent[n]].event)
  {
    assert sent == sent[..|sent| - 1] + [sent[|sent| - 1]];
    NoticesAppend(calls, render, sent[..|sent| - 1], sent[|sent| - 1]);
  }

  /** Part of some notices are the notices of part of the callbacks, in order. */
  lemma {:induction false} Attribute(calls: seq<Callback>, render: Render, kept: seq<C.Wire>, sent: seq<nat>)
    returns (labels: seq<nat>)
    requires InOrder(calls, sent) && Subsequence(kept, Notices(calls, render, sent))
    ensures InOrder(calls, labels) && kept == Notices(calls, render, labels)
    ensures forall x | x in labels :: x in sent
    decreases |sent|
  {
    if kept == [] {
      labels := [];
    } else {
      var n, m := |sent| - 1, |kept| - 1;
      NoticesSplit(calls, render, sent);
      if kept[m] == Notice(render, calls[sent[n]].event) && Subsequence(kept[..m], Notices(calls, render, sent[..n])) {
        labels := Attribute(calls, render, kept[..m], sent[..n]);
        OrderAppend(calls, sent, labels);
        NoticesAppend(calls, render, labels, sent[n]);
        labels := labels + [sent[n]];
      } else {
        labels := Attribute(calls, render, kept, sent[..n]);
      }
    }
  }

  /**
   * At any time, whatever was lost or dropped, what a client has received can be attributed to
   * callbacks of the manager, none twice, so that the beginning of a run never comes after
   * anything else reported of that run.
   */
  lemma BeginningsComeFirst(cfg: seq<TunnelConfig>, i: nat, render: Render, states: seq<State>, steps: seq<Step>, k: nat)
    returns (labels: seq<nat>)
    requires Execution(cfg, i, render, states, steps) && k < |states|
    ensures InOrder(states[k].calls, labels)
    ensures C.Kept(states[k].link.client) == Notices(states[k].calls, render, labels)
    ensures forall w | w in C.Kept(states[k].link.client) :: w.id == "" && w.verb == "tunnel.statusChanged"
  {
    var p := states[k];
    SentInOrder(cfg, i, render, states, steps, k);
    KeptWithinSeen(cfg, i, render, states, steps, k);
    R.NotificationsPrefix(p.link.down, p.link.read);
    SubsequenceExtend(C.Kept(p.link.client), R.Seen(p.link), C.Notifications(p.link.down));
    labels := Attribute(p.calls, render, C.Kept(p.link.client), p.sent);
  }
}
