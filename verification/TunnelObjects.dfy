/** The main goroutine of a tunnel run (internal/tunnel/tunnel.go) as a mutable object. */
module TunnelObjects {
  import opened Prelude
  import opened TunnelRun

  /** What one `Accept` call brings: a connection, or an error with the context done or not. */
  datatype Accepted = Connection | Failure(cancelled: bool)

  function IsConnection(a: Accepted): nat {
    if a == Connection then 1 else 0
  }

  /** `n` handlers that have just been spawned for connections to `addr`. */
  ghost function Fresh(n: nat, addr: string): seq<Handler> {
    seq(n, _ => NewHandler(addr))
  }

  /** The step of the run that a turn of the accept loop takes. */
  function StepOf(a: Accepted): Step {
    if a == Connection then AcceptConnection else AcceptFails
  }

  /**
   * What the accept loop has done with `results`: a handler and a WaitGroup slot per connection,
   * an end to accepting only at an error with the context done, and nothing else.
   */
  ghost predicate AcceptedAll(s: State, results: seq<Accepted>, s': State) {
    var n, last := Sum(results, IsConnection), |results| - 1;
    && s' == s.(wg := s.wg + n, handlers := s.handlers + Fresh(n, s.target.remoteAddr), phase := s'.phase)
    && (forall i | 0 <= i < last :: results[i] != Failure(true))
    && s'.phase == if last >= 0 && results[last] == Failure(true) then Draining else s.phase
  }

  lemma AcceptOneMore(s: State, results: seq<Accepted>, s': State, result: Accepted)
    requires AcceptedAll(s, results, s') && s.phase == s'.phase == Accepting && (result == Connection ==> s'.listener.Some?)
    ensures AcceptedAll(s, results + [result], Apply(s', result == Failure(true), StepOf(result)))
  {
    SumAppend(results, result, IsConnection);
    assert result == Connection ==>
        var addr := s.target.remoteAddr;
        Fresh(Sum(results + [result], IsConnection), addr) == Fresh(Sum(results, IsConnection), addr) + [NewHandler(addr)];
  }

  class TunnelProcess {
    const target: Target
    var phase: Phase
    var ssh: Option<Login>
    var listener: Option<string>
    var canceller: Canceller
    var connCancelled: bool
    var wg: int
    var handlers: seq<Handler>

    ghost function View(): State
      reads this
    {
      State(target, phase, ssh, listener, canceller, connCancelled, wg, handlers)
    }

    constructor (target: Target)
      ensures View() == Init(target)
    {
      this.target := target;
      phase, ssh, listener, canceller, connCancelled, wg, handlers := DialingSSH, None, None, Unstarted, false, 0, [];
    }

    method ReturnWith(outcome: Outcome)
      modifies this
      ensures View() == Return(old(View()), outcome)
    {
      connCancelled := true;
      listener := None;
      ssh := None;
      phase := Returned(outcome);
    }

    /** The SSH dial; `cause` is the error, if any. */
    method Dial(cause: Option<string>, ctx: bool)
      requires phase == DialingSSH
      modifies this
      ensures View() == Apply(old(View()), ctx, if cause == None then DialSucceeds else DialFails(cause.value))
    {
      if cause.Some? {
        ReturnWith(Failed("unable to connect to SSH server " + target.sshHost + ": " + cause.value));
      } else {
        ssh := Some(Login(target.sshHost, target.sshUser));
        phase := Listening;
      }
    }

    /** Opening the listener, then spawning the cancellation goroutine. */
    method Listen(cause: Option<string>, ctx: bool)
      requires phase == Listening
      modifies this
      ensures View() == Apply(old(View()), ctx, if cause == None then ListenSucceeds else ListenFails(cause.value))
    {
      if cause.Some? {
        ReturnWith(Failed("unable to listen on " + target.localAddr + ": " + cause.value));
      } else {
        phase, listener, canceller := Accepting, Some(target.localAddr), Waiting;
      }
    }

    /** One turn of the accept loop: a step of the run. */
    method AcceptOne(result: Accepted)
      requires phase == Accepting && (result == Connection ==> listener.Some?)
      modifies this
      ensures View() == Apply(old(View()), result == Failure(true), StepOf(result))
    {
      match result {
        case Connection =>
          wg := wg + 1;
          handlers := handlers + [NewHandler(target.remoteAddr)];
        case Failure(cancelled) =>
          if cancelled {
            phase := Draining;
          }
      }
    }

    /** The accept loop over a sequence of results, until an error comes with the context done. */
    method AcceptLoop(results: seq<Accepted>) returns (used: nat)
      requires phase == Accepting && (Connection in results ==> listener.Some?)
      modifies this
      ensures used <= |results| && AcceptedAll(old(View()), results[..used], View())
      ensures phase == Accepting ==> used == |results|
    {
      used := 0;
      while used < |results| && phase == Accepting
        invariant used <= |results| && AcceptedAll(old(View()), results[..used], View())
      {
        assert results[..used + 1] == results[..used] + [results[used]];
        AcceptOneMore(old(View()), results[..used], View(), results[used]);
        AcceptOne(results[used]);
        used := used + 1;
      }
    }

    /** The cancellation goroutine, once the context is done. */
    method CloseOnCancel()
      requires canceller == Waiting
      modifies this
      ensures View() == Apply(old(View()), true, CloseListener)
    {
      listener := None;
      canceller := Fired;
    }

    /** `wg.Wait` returning, then the return of `ErrTunnelClosed`. */
    method Drain(ctx: bool)
      requires phase == Draining && wg == 0
      modifies this
      ensures View() == Apply(old(View()), ctx, DrainCompletes)
    {
      ReturnWith(Closed);
    }
  }
}
