/**
 * One tunnel run (internal/tunnel/tunnel.go): the SSH dial, the local listener, the accept
 * loop with its WaitGroup, the cancellation goroutine, and one handler with two copiers per
 * accepted connection.  Every point at which goroutines can interleave is one step.
 */
module TunnelRun {
  import opened Prelude

  // ---------------------------------------------------------------- handlers

  /** Where a connection handler is in `handleConnection`, its deferred calls included. */
  datatype Stage =
    | Dialing        // sshClient.Dial in progress
    | Selecting      // in the select
    | Forcing        // saw ctx.Done, about to close both ends
    | Awaiting       // both ends closed, waiting on <-done
    | ClosingRemote  // deferred remoteConn.Close
    | ClosingLocal   // deferred localConn.Close
    | Signalling     // deferred wg.Done
    | Finished

  datatype Copier = Idle | Copying | Copied | Exited

  datatype Remote = Undialed | Open | Shut

  /** `addr` is what it dials through SSH, `done` the number of values in its buffered channel. */
  datatype Handler = Handler(addr: string, stage: Stage, localOpen: bool, remote: Remote,
                             outbound: Copier, inbound: Copier, done: nat)

  const DONE_CAPACITY: nat := 2

  datatype HandlerStep =
    | RemoteDialed
    | RemoteRefused
    | SeeDone
    | SeeCancel
    | ForceClose
    | AwaitDone
    | CloseRemote
    | CloseLocal
    | Signal
    | CopyReturns(forward: bool)
    | SendDone(forward: bool)

  function NewHandler(addr: string): Handler {
    Handler(addr, Dialing, true, Undialed, Idle, Idle, 0)
  }

  function CopierOf(h: Handler, forward: bool): Copier {
    if forward then h.outbound else h.inbound
  }

  function WithCopier(h: Handler, forward: bool, c: Copier): Handler {
    if forward then h.(outbound := c) else h.(inbound := c)
  }

  /** `cancelled` is whether the handler's context is done. */
  predicate HandlerEnabled(h: Handler, cancelled: bool, step: HandlerStep) {
    match step
    case RemoteDialed => h.stage == Dialing
    case RemoteRefused => h.stage == Dialing
    case SeeDone => h.stage == Selecting && h.done > 0
    case SeeCancel => h.stage == Selecting && cancelled
    case ForceClose => h.stage == Forcing
    case AwaitDone => h.stage == Awaiting && h.done > 0
    case CloseRemote => h.stage == ClosingRemote
    case CloseLocal => h.stage == ClosingLocal
    case Signal => h.stage == Signalling
    case CopyReturns(f) => CopierOf(h, f) == Copying
    case SendDone(f) => CopierOf(h, f) == Copied && h.done < DONE_CAPACITY
  }

  function HandlerApply(h: Handler, step: HandlerStep): Handler {
    match step
    case RemoteDialed => h.(stage := Selecting, remote := Open, outbound := Copying, inbound := Copying)
    case RemoteRefused => h.(stage := ClosingLocal)
    case SeeDone => h.(stage := ClosingRemote, done := if h.done > 0 then h.done - 1 else 0)
    case SeeCancel => h.(stage := Forcing)
    case ForceClose => h.(stage := Awaiting, localOpen := false, remote := Shut)
    case AwaitDone => h.(stage := ClosingRemote, done := if h.done > 0 then h.done - 1 else 0)
    case CloseRemote => h.(stage := ClosingLocal, remote := Shut)
    case CloseLocal => h.(stage := Signalling, localOpen := false)
    case Signal => h.(stage := Finished)
    case CopyReturns(f) => WithCopier(h, f, Copied)
    case SendDone(f) => WithCopier(h, f, Exited).(done := h.done + 1)
  }

  function ExitedCopiers(h: Handler): nat {
    (if h.outbound == Exited then 1 else 0) + (if h.inbound == Exited then 1 else 0)
  }

  /** Whether the handler has taken its one value from the `done` channel. */
  predicate HasReceived(h: Handler) {
    h.remote != Undialed && h.stage in {ClosingRemote, ClosingLocal, Signalling, Finished}
  }

  ghost predicate HandlerInv(h: Handler) {
    && (h.stage == Dialing ==> h.remote == Undialed && h.localOpen)
    && (h.stage in {Selecting, Forcing, Awaiting, ClosingRemote} ==> h.remote != Undialed)
    && (h.stage in {Selecting, Forcing} ==> h.localOpen && h.remote == Open)
    && (h.stage == Awaiting ==> !h.localOpen && h.remote == Shut)
    && (h.stage in {ClosingLocal, Signalling, Finished} ==> h.remote != Open)
    && (h.stage in {Signalling, Finished} ==> !h.localOpen)
    && (h.remote == Undialed <==> h.outbound == Idle)
    && (h.remote == Undialed <==> h.inbound == Idle)
    // every value sent is still buffered or was received
    && h.done + (if HasReceived(h) then 1 else 0) == ExitedCopiers(h)
  }

  lemma HandlerInvKept(h: Handler, cancelled: bool, step: HandlerStep)
    requires HandlerInv(h) && HandlerEnabled(h, cancelled, step)
    ensures HandlerInv(HandlerApply(h, step)) && HandlerApply(h, step).addr == h.addr
  {
  }

  /** A copier that has finished copying never blocks on the buffered channel, so none leaks. */
  lemma SendNeverBlocks(h: Handler, cancelled: bool, forward: bool)
    requires HandlerInv(h) && CopierOf(h, forward) == Copied
    ensures HandlerEnabled(h, cancelled, SendDone(forward))
  {
  }

  /** A handler that is not finished holds its WaitGroup slot. */
  function Holds(h: Handler): nat {
    if h.stage == Finished then 0 else 1
  }

  function StageRank(s: Stage): nat {
    match s
    case Dialing => 7
    case Selecting => 6
    case Forcing => 5
    case Awaiting => 4
    case ClosingRemote => 3
    case ClosingLocal => 2
    case Signalling => 1
    case Finished => 0
  }

  function CopierRank(c: Copier): nat {
    match c
    case Idle => 2
    case Copying => 2
    case Copied => 1
    case Exited => 0
  }

  function HandlerRank(h: Handler): nat {
    StageRank(h.stage) + CopierRank(h.outbound) + CopierRank(h.inbound)
  }

  lemma HandlerRankDrops(h: Handler, cancelled: bool, step: HandlerStep)
    requires HandlerEnabled(h, cancelled, step)
    requires HandlerInv(h)
    ensures HandlerRank(HandlerApply(h, step)) < HandlerRank(h)
  {
  }

  // -------------------------------------------------------------- the run

  /** The source's `Tunnel` record. */
  datatype Target = Target(sshHost: string, sshUser: string, remoteAddr: string, localAddr: string)

  /** What `Start` returns: `ErrTunnelClosed`, or another error with this text.  It never returns nil. */
  datatype Outcome = Closed | Failed(text: string)

  datatype Phase = DialingSSH | Listening | Accepting | Draining | Returned(outcome: Outcome)

  datatype Canceller = Unstarted | Waiting | Fired

  /** An SSH connection: whom it reached and as which user. */
  datatype Login = Login(host: string, user: string)

  /** `ssh` and `listener` are what is open, `wg` is an integer because a WaitGroup below zero is a panic, not a wrapped natural. */
  datatype State = State(target: Target, phase: Phase, ssh: Option<Login>, listener: Option<string>, canceller: Canceller,
                         connCancelled: bool, wg: int, handlers: seq<Handler>)

  datatype Step =
    | DialSucceeds
    | DialFails(cause: string)
    | ListenSucceeds
    | ListenFails(cause: string)
    | AcceptConnection
    | AcceptFails
    | CloseListener
    | DrainCompletes
    | Handle(i: nat, move: HandlerStep)

  function Init(target: Target): State {
    State(target, DialingSSH, None, None, Unstarted, false, 0, [])
  }

  function DialError(target: Target, cause: string): string {
    "unable to connect to SSH server " + target.sshHost + ": " + cause
  }

  function ListenError(target: Target, cause: string): string {
    "unable to listen on " + target.localAddr + ": " + cause
  }

  /** `ctx` is whether the context passed to `Start` has been cancelled. */
  predicate Enabled(s: State, ctx: bool, step: Step) {
    match step
    case DialSucceeds => s.phase == DialingSSH
    case DialFails(_) => s.phase == DialingSSH
    case ListenSucceeds => s.phase == Listening
    case ListenFails(_) => s.phase == Listening
    case AcceptConnection => s.phase == Accepting && s.listener.Some?
    case AcceptFails => s.phase == Accepting
    case CloseListener => s.canceller == Waiting && ctx
    case DrainCompletes => s.phase == Draining && s.wg == 0
    case Handle(i, move) => i < |s.handlers| && HandlerEnabled(s.handlers[i], ctx || s.connCancelled, move)
  }

  /** `Start` returning runs its deferred calls: cancel the connections, close the listener and the SSH connection. */
  function Return(s: State, outcome: Outcome): State {
    s.(phase := Returned(outcome), connCancelled := true, listener := None, ssh := None)
  }

  function Apply(s: State, ctx: bool, step: Step): State
    requires Enabled(s, ctx, step)
  {
    match step
    case DialSucceeds => s.(phase := Listening, ssh := Some(Login(s.target.sshHost, s.target.sshUser)))
    case DialFails(cause) => Return(s, Failed(DialError(s.target, cause)))
    case ListenSucceeds => s.(phase := Accepting, listener := Some(s.target.localAddr), canceller := Waiting)
    case ListenFails(cause) => Return(s, Failed(ListenError(s.target, cause)))
    case AcceptConnection => s.(wg := s.wg + 1, handlers := s.handlers + [NewHandler(s.target.remoteAddr)])
    case AcceptFails => if ctx then s.(phase := Draining) else s
    case CloseListener => s.(canceller := Fired, listener := None)
    case DrainCompletes => Return(s, Closed)
    case Handle(i, move) =>
      s.(handlers := s.handlers[i := HandlerApply(s.handlers[i], move)],
         wg := if move == Signal then s.wg - 1 else s.wg)
  }

  // -------------------------------------------------------------- invariant

  /** The error texts `Start` can build. */
  ghost predicate ReportsFailure(target: Target, text: string) {
    exists cause: string :: text == DialError(target, cause) || text == ListenError(target, cause)
  }

  /** Every handler is in order and dials this address. */
  ghost predicate HandlersOk(handlers: seq<Handler>, addr: string) {
    forall h | h in handlers :: HandlerInv(h) && h.addr == addr
  }

  lemma HandlersUpdated(handlers: seq<Handler>, addr: string, i: nat, h: Handler)
    requires HandlersOk(handlers, addr) && i < |handlers| && HandlerInv(h) && h.addr == addr
    ensures HandlersOk(handlers[i := h], addr)
  {
    forall x | x in handlers[i := h]
      ensures HandlerInv(x) && x.addr == addr
    {
      var k :| 0 <= k < |handlers| && handlers[i := h][k] == x;
      assert k != i ==> handlers[k] in handlers;
    }
  }

  ghost predicate Inv(s: State, ctx: bool) {
    && s.wg == Sum(s.handlers, Holds)
    && HandlersOk(s.handlers, s.target.remoteAddr)
    && s.ssh == (if s.phase in {Listening, Accepting, Draining} then Some(Login(s.target.sshHost, s.target.sshUser)) else None)
    && (s.listener.Some? ==> s.listener.value == s.target.localAddr && s.phase in {Accepting, Draining})
    && (s.connCancelled <==> s.phase.Returned?)
    && (s.phase in {DialingSSH, Listening} ==> s.handlers == [] && s.canceller == Unstarted)
    && (s.phase in {Accepting, Draining} ==> s.canceller != Unstarted)
    && (s.canceller == Fired ==> ctx && s.listener == None)
    && (s.phase == Accepting && s.listener == None ==> s.canceller == Fired)
    && (s.phase == Draining ==> ctx)
    && (s.phase == Returned(Closed) ==> ctx && s.wg == 0)
    && (s.phase.Returned? && s.phase.outcome.Failed? ==>
          s.handlers == [] && s.canceller == Unstarted && ReportsFailure(s.target, s.phase.outcome.text))
  }

  lemma InitInv(target: Target, ctx: bool)
    ensures Inv(Init(target), ctx)
  {
  }

  /** Cancelling the parent context keeps the invariant. */
  lemma CancelKeepsInv(s: State, ctx: bool)
    requires Inv(s, ctx)
    ensures Inv(s, true)
  {
  }

  lemma HandleKeepsInv(s: State, ctx: bool, i: nat, move: HandlerStep)
    requires Inv(s, ctx) && Enabled(s, ctx, Handle(i, move))
    ensures Inv(Apply(s, ctx, Handle(i, move)), ctx)
  {
    var h := s.handlers[i];
    var h' := HandlerApply(h, move);
    assert h in s.handlers;
    HandlerInvKept(h, ctx || s.connCancelled, move);
    SumUpdate(s.handlers, i, h', Holds);
    SumAtLeast(s.handlers, i, Holds);
    HandlersUpdated(s.handlers, s.target.remoteAddr, i, h');
    assert Holds(h) == 1 || Holds(h') == 0;
  }

  lemma AcceptKeepsInv(s: State, ctx: bool)
    requires Inv(s, ctx) && Enabled(s, ctx, AcceptConnection)
    ensures Inv(Apply(s, ctx, AcceptConnection), ctx)
  {
    var h := NewHandler(s.target.remoteAddr);
    SumAppend(s.handlers, h, Holds);
    forall x | x in s.handlers + [h]
      ensures HandlerInv(x) && x.addr == s.target.remoteAddr
    {
      assert x in s.handlers || x == h;
    }
  }

  lemma StepKeepsInv(s: State, ctx: bool, step: Step)
    requires Inv(s, ctx) && Enabled(s, ctx, step)
    ensures Inv(Apply(s, ctx, step), ctx)
    ensures Apply(s, ctx, step).target == s.target
  {
    match step
    case AcceptConnection => AcceptKeepsInv(s, ctx);
    case Handle(i, move) =>
      HandleKeepsInv(s, ctx, i, move);
    case DialFails(cause) =>
      assert ReportsFailure(s.target, DialError(s.target, cause));
    case ListenFails(cause) =>
      assert ReportsFailure(s.target, ListenError(s.target, cause));
    case _ =>
  }

  // -------------------------------------------------------------- what a return means

  /** The handler is gone and neither end of its connection is left open. */
  predicate Released(h: Handler) {
    h.stage == Finished && !h.localOpen && h.remote != Open
  }

  /**
   * A run that returns `ErrTunnelClosed` was cancelled, every connection it ever accepted has
   * been released, and neither its listener nor its SSH connection is left open.
   */
  lemma ClosedRunReleasesEverything(s: State, ctx: bool)
    requires Inv(s, ctx) && s.phase == Returned(Closed)
    ensures ctx && s.listener == None && s.ssh == None
    ensures forall h | h in s.handlers :: Released(h)
  {
    forall h | h in s.handlers
      ensures Released(h)
    {
      var i :| 0 <= i < |s.handlers| && s.handlers[i] == h;
      SumAtLeast(s.handlers, i, Holds);
    }
  }

  /** A run that returns any other error never accepted a connection. */
  lemma FailedRunAcceptedNothing(s: State, ctx: bool)
    requires Inv(s, ctx) && s.phase.Returned? && s.phase.outcome != Closed
    ensures s.handlers == [] && s.listener == None && s.ssh == None
    ensures ReportsFailure(s.target, s.phase.outcome.text)
  {
  }

  /** Whatever is open is what the target says: the SSH host and user, the local and the remote address. */
  lemma OpensItsTarget(s: State, ctx: bool)
    requires Inv(s, ctx)
    ensures s.ssh.Some? ==> s.ssh.value.host == s.target.sshHost && s.ssh.value.user == s.target.sshUser
    ensures s.listener.Some? ==> s.ssh.Some? && s.listener.value == s.target.localAddr
    ensures forall h | h in s.handlers :: h.addr == s.target.remoteAddr
    ensures s.phase.Returned? ==> s.ssh == None && s.listener == None
  {
  }

  /**
   * A connection whose remote end cannot be dialled: all its handler can still do is close the
   * local end and leave the WaitGroup, with no copier ever started.
   */
  lemma RefusedConnectionIsClosed(h: Handler, cancelled: bool)
    requires HandlerInv(h) && h.stage == Dialing
    ensures HandlerEnabled(h, cancelled, RemoteRefused)
    ensures var refused := HandlerApply(h, RemoteRefused);
            var closed := HandlerApply(refused, CloseLocal);
            var gone := HandlerApply(closed, Signal);
            && (forall step :: HandlerEnabled(refused, cancelled, step) <==> step == CloseLocal)
            && (forall step :: HandlerEnabled(closed, cancelled, step) <==> step == Signal)
            && (forall step :: !HandlerEnabled(gone, cancelled, step))
            && Released(gone) && gone.remote == Undialed && NoCopierLeft(gone)
  {
  }

  /** A connection whose remote end was dialled has both ends open and copies both ways. */
  lemma DialledConnectionCopies(h: Handler, cancelled: bool)
    requires HandlerInv(h) && h.stage == Dialing
    ensures HandlerEnabled(h, cancelled, RemoteDialed)
    ensures var served := HandlerApply(h, RemoteDialed);
            && served.localOpen && served.remote == Open
            && (forall step :: HandlerEnabled(served, cancelled, step) <==>
                  step == CopyReturns(true) || step == CopyReturns(false) || (cancelled && step == SeeCancel))
  {
  }

  // -------------------------------------------------------------- termination after cancellation

  function PhaseRank(p: Phase): nat {
    match p
    case DialingSSH => 4
    case Listening => 3
    case Accepting => 2
    case Draining => 1
    case Returned(_) => 0
  }

  ghost function Rank(s: State): nat {
    PhaseRank(s.phase) + Sum(s.handlers, HandlerRank)
  }

  /** Once cancellation has closed the listener, every step of every goroutine lowers the rank. */
  lemma RankDrops(s: State, step: Step)
    requires Inv(s, true) && s.canceller == Fired && Enabled(s, true, step)
    ensures Rank(Apply(s, true, step)) < Rank(s)
    ensures Apply(s, true, step).canceller == Fired
  {
    match step
    case Handle(i, move) =>
      var h := s.handlers[i];
      assert h in s.handlers;
      HandlerRankDrops(h, true, move);
      SumUpdate(s.handlers, i, HandlerApply(h, move), HandlerRank);
    case _ =>
  }

  /**
   * The steps the environment owes: dials return, an Accept on a closed listener fails and a
   * copy with a closed end returns.  A new connection or a copy on live ends is never owed.
   */
  predicate Owed(s: State, step: Step) {
    match step
    case AcceptConnection => false
    case AcceptFails => s.listener == None
    case Handle(i, CopyReturns(_)) => i < |s.handlers| && (!s.handlers[i].localOpen || s.handlers[i].remote == Shut)
    case _ => true
  }

  /** An unfinished handler of a cancelled run always has an owed move. */
  lemma HandlerMoves(h: Handler) returns (move: HandlerStep)
    requires HandlerInv(h) && h.stage != Finished
    ensures HandlerEnabled(h, true, move)
    ensures move.CopyReturns? ==> !h.localOpen || h.remote == Shut
  {
    match h.stage
    case Dialing => move := RemoteDialed;
    case Selecting => move := SeeCancel;
    case Forcing => move := ForceClose;
    case ClosingRemote => move := CloseRemote;
    case ClosingLocal => move := CloseLocal;
    case Signalling => move := Signal;
    case Awaiting =>
      if h.done > 0 {
        move := AwaitDone;
      } else if h.outbound == Copying {
        move := CopyReturns(true);
      } else {
        move := SendDone(true);
      }
  }

  /** A cancelled run that has not returned always has an owed step: no deadlock. */
  lemma CancelledRunMoves(s: State) returns (step: Step)
    requires Inv(s, true) && !s.phase.Returned?
    ensures Enabled(s, true, step) && Owed(s, step)
  {
    match s.phase
    case DialingSSH => step := DialSucceeds;
    case Listening => step := ListenSucceeds;
    case Accepting => step := if s.canceller == Waiting then CloseListener else AcceptFails;
    case Draining =>
      if s.wg == 0 {
        step := DrainCompletes;
      } else {
        var i := SumWitness(s.handlers, Holds);
        assert s.handlers[i] in s.handlers;
        var move := HandlerMoves(s.handlers[i]);
        step := Handle(i, move);
      }
  }

  /** Neither copier of the handler is left running. */
  predicate NoCopierLeft(h: Handler) {
    h.outbound in {Idle, Exited} && h.inbound in {Idle, Exited}
  }

  /** A released handler whose copiers have nothing owed to them has no copier left. */
  lemma ReleasedCopiersExit(s: State, i: nat)
    requires Inv(s, true) && i < |s.handlers| && Released(s.handlers[i])
    requires forall step | Enabled(s, true, step) :: !Owed(s, step)
    ensures NoCopierLeft(s.handlers[i])
  {
    var h := s.handlers[i];
    assert h in s.handlers;
    forall forward: bool
      ensures CopierOf(h, forward) in {Idle, Exited}
    {
      assert Enabled(s, true, Handle(i, CopyReturns(forward))) ==> !Owed(s, Handle(i, CopyReturns(forward)));
      assert Enabled(s, true, Handle(i, SendDone(forward))) ==> !Owed(s, Handle(i, SendDone(forward)));
      if CopierOf(h, forward) == Copied {
        SendNeverBlocks(h, true, forward);
      }
    }
    assert CopierOf(h, true) == h.outbound && CopierOf(h, false) == h.inbound;
  }

  /** `steps` is a run of a cancelled tunnel from `s` to `t`. */
  ghost predicate Leads(s: State, steps: seq<Step>, t: State)
    decreases |steps|
  {
    if steps == [] then s == t
    else Enabled(s, true, steps[0]) && Leads(Apply(s, true, steps[0]), steps[1..], t)
  }

  /**
   * After cancellation has closed the listener, no schedule is longer than the rank, and a
   * schedule that can only be extended by what is not owed has returned `ErrTunnelClosed`
   * with every connection released and every copier gone.
   */
  lemma {:induction false} CancelledRunReturns(s: State, steps: seq<Step>, t: State)
    requires Inv(s, true) && s.canceller == Fired && Leads(s, steps, t)
    ensures |steps| + Rank(t) <= Rank(s)
    ensures (forall step | Enabled(t, true, step) :: !Owed(t, step)) ==>
              t.phase == Returned(Closed) && forall h | h in t.handlers :: Released(h) && NoCopierLeft(h)
    decreases |steps|
  {
    if steps == [] {
      if forall step | Enabled(t, true, step) :: !Owed(t, step) {
        if !t.phase.Returned? {
          var step := CancelledRunMoves(t);
          assert false;
        }
        ClosedRunReleasesEverything(t, true);
        forall i | 0 <= i < |t.handlers|
          ensures NoCopierLeft(t.handlers[i])
        {
          assert t.handlers[i] in t.handlers;
          ReleasedCopiersExit(t, i);
        }
      }
    } else {
      RankDrops(s, steps[0]);
      StepKeepsInv(s, true, steps[0]);
      CancelledRunReturns(Apply(s, true, steps[0]), steps[1..], t);
    }
  }
}
