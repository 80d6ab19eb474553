/**
 * The client side of the daemon protocol (internal/daemon/client.go, internal/daemon/protocol.go):
 * concurrent calls with one-slot response channels, a pending map, one read loop and a bounded
 * notification queue.  What arrives on the connection is arbitrary here.
 */
module RpcClient {
  import opened Prelude
  import opened Text

  // -------------------------------------------------------------- messages

  datatype Body =
    | Result(data: string)
    | Fault(code: int, message: string)
    | Params(data: string)

  /** One message from the daemon; absent fields are empty. */
  datatype Wire = Wire(id: string, verb: string, body: Body)

  datatype Request = Request(id: string, verb: string, params: string)

  function NewNotification(verb: string, params: string): Wire {
    Wire("", verb, Params(params))
  }

  /** How the read loop tells messages apart: a response has an ID, a notification only a method. */
  predicate IsResponse(w: Wire) {
    w.id != ""
  }

  predicate IsNotification(w: Wire) {
    w.id == "" && w.verb != ""
  }

  // -------------------------------------------------------------- state

  datatype Reply = Answered(w: Wire) | MarshalFailed | SendFailed | ConnectionClosed

  /** Where a `call` is. */
  datatype Progress =
    | Numbered    // has its ID
    | Registered  // its channel is in the pending map
    | Undoing     // sending failed, about to leave the pending map
    | Waiting     // sent, in the select
    | Returned(reply: Reply)

  /** A call in progress; `slot` is the content of its one-slot channel. */
  datatype Call = Call(id: string, verb: string, params: string, progress: Progress, slot: Option<Wire>)

  /** `responses` maps an ID to the call whose channel is registered for it. */
  datatype Client = Client(nextID: nat, calls: seq<Call>, responses: map<string, nat>,
                           queue: seq<Wire>, consumed: seq<Wire>, closed: bool)

  const ID_SPACE: nat := 0x1_0000_0000_0000_0000
  const QUEUE_CAPACITY: nat := 100

  function Connect(): Client {
    Client(0, [], map[], [], [], false)
  }

  datatype Step =
    | NewCall(verb: string, params: string)
    | MarshalFails(c: nat)
    | Register(c: nat)
    | SendOk(c: nat)
    | SendFails(c: nat)
    | Unregister(c: nat)
    | Receive(w: Wire)
    | TakeReply(c: nat)
    | SeeClosed(c: nat)
    | ReadLoopEnds
    | Consume

  predicate At(s: Client, c: nat, p: Progress) {
    c < |s.calls| && s.calls[c].progress == p
  }

  /** Delivery waits until the channel has room; everything else can always be handled. */
  predicate Enabled(s: Client, step: Step) {
    match step
    case NewCall(_, _) => true
    case MarshalFails(c) => At(s, c, Numbered)
    case Register(c) => At(s, c, Numbered)
    case SendOk(c) => At(s, c, Registered)
    case SendFails(c) => At(s, c, Registered)
    case Unregister(c) => At(s, c, Undoing)
    case Receive(w) =>
      && !s.closed
      && (IsResponse(w) && w.id in s.responses ==>
            s.responses[w.id] < |s.calls| && s.calls[s.responses[w.id]].slot == None)
    case TakeReply(c) => At(s, c, Waiting) && s.calls[c].slot.Some?
    case SeeClosed(c) => At(s, c, Waiting) && s.closed
    case ReadLoopEnds => !s.closed
    case Consume => s.queue != []
  }

  function Move(s: Client, c: nat, p: Progress): Client
    requires c < |s.calls|
  {
    s.(calls := s.calls[c := s.calls[c].(progress := p)])
  }

  /** `nextID.Add(1)` on a 64-bit counter. */
  function NextID(s: Client): nat {
    (s.nextID + 1) % ID_SPACE
  }

  /** One turn of the read loop. */
  function Deliver(s: Client, w: Wire): Client
    requires Enabled(s, Receive(w))
  {
    if IsResponse(w) then
      if w.id in s.responses then
        var c := s.responses[w.id];
        s.(calls := s.calls[c := s.calls[c].(slot := Some(w))], responses := s.responses - {w.id})
      else s
    else if IsNotification(w) && |s.queue| < QUEUE_CAPACITY then s.(queue := s.queue + [w])
    else s
  }

  function Apply(s: Client, step: Step): Client
    requires Enabled(s, step)
  {
    match step
    case NewCall(verb, params) =>
      s.(nextID := NextID(s), calls := s.calls + [Call(Decimal(NextID(s)), verb, params, Numbered, None)])
    case MarshalFails(c) => Move(s, c, Returned(MarshalFailed))
    case Register(c) => Move(s, c, Registered).(responses := s.responses[s.calls[c].id := c])
    case SendOk(c) => Move(s, c, Waiting)
    case SendFails(c) => Move(s, c, Undoing)
    case Unregister(c) => Move(s, c, Returned(SendFailed)).(responses := s.responses - {s.calls[c].id})
    case Receive(w) => Deliver(s, w)
    case TakeReply(c) =>
      s.(calls := s.calls[c := s.calls[c].(progress := Returned(Answered(s.calls[c].slot.value)), slot := None)])
    case SeeClosed(c) => Move(s, c, Returned(ConnectionClosed))
    case ReadLoopEnds => s.(closed := true)
    case Consume => s.(consumed := s.consumed + [s.queue[0]], queue := s.queue[1..])
  }

  // -------------------------------------------------------------- the read loop never blocks

  /** Who may be in the pending map: calls under way, and those that gave up when the connection closed. */
  predicate MayBePending(p: Progress) {
    p == Registered || p == Undoing || p == Waiting || p == Returned(ConnectionClosed)
  }

  /** A pending channel is registered under its own call's ID and has its slot free; no other call is left behind. */
  ghost predicate Pending(calls: seq<Call>, responses: map<string, nat>) {
    forall id | id in responses ::
      && responses[id] < |calls|
      && calls[responses[id]].id == id
      && calls[responses[id]].slot == None
      && MayBePending(calls[responses[id]].progress)
  }

  ghost predicate Inv(s: Client) {
    && Pending(s.calls, s.responses)
    && (forall c | 0 <= c < |s.calls| && s.calls[c].progress == Numbered :: s.calls[c].slot == None)
    && |s.queue| <= QUEUE_CAPACITY
  }

  /** The invariant survives every step, whatever the peer sends and however often IDs wrap around. */
  lemma StepKeepsInv(s: Client, step: Step)
    requires Inv(s) && Enabled(s, step)
    ensures Inv(Apply(s, step))
  {
  }

  /** Any message can be handled at once: the read loop never blocks on a channel. */
  lemma ReadLoopNeverBlocks(s: Client, w: Wire)
    requires Inv(s) && !s.closed
    ensures Enabled(s, Receive(w))
  {
  }

  ghost predicate Execution(states: seq<Client>, steps: seq<Step>) {
    && |states| == |steps| + 1 && states[0] == Connect()
    && forall i | 0 <= i < |steps| :: Enabled(states[i], steps[i]) && states[i + 1] == Apply(states[i], steps[i])
  }

  /** In every state any client can reach, with any peer, the read loop can take the next message. */
  lemma {:induction false} NeverBlocks(states: seq<Client>, steps: seq<Step>, k: nat)
    requires Execution(states, steps) && k < |states|
    ensures Inv(states[k])
    ensures forall w | !states[k].closed :: Enabled(states[k], Receive(w))
    decreases k
  {
    if k > 0 {
      NeverBlocks(states, steps, k - 1);
      StepKeepsInv(states[k - 1], steps[k - 1]);
    }
  }

  /** Once the read loop has ended, no waiting call can be left hanging. */
  lemma {:induction false} ClosingFreesCallers(states: seq<Client>, steps: seq<Step>, j: nat, k: nat)
    requires Execution(states, steps) && j < k < |states| && steps[j] == ReadLoopEnds
    ensures states[k].closed
    ensures forall c: nat | At(states[k], c, Waiting) :: Enabled(states[k], SeeClosed(c))
    ensures forall w :: !Enabled(states[k], Receive(w))
    decreases k
  {
    if j + 1 < k {
      ClosingFreesCallers(states, steps, j, k - 1);
    }
  }

  // -------------------------------------------------------------- what a call asks and how it returns

  /** A new call has what it was asked for; a call never changes what it asks. */
  lemma CallsKeepAsking(s: Client, step: Step, c: nat)
    requires Enabled(s, step) && c < |Apply(s, step).calls|
    ensures if c < |s.calls| then Apply(s, step).calls[c].verb == s.calls[c].verb && Apply(s, step).calls[c].params == s.calls[c].params
            else c == |s.calls| && step == NewCall(Apply(s, step).calls[c].verb, Apply(s, step).calls[c].params)
    ensures |s.calls| <= |Apply(s, step).calls|
    ensures step.NewCall? ==> |Apply(s, step).calls| == |s.calls| + 1
  {
  }

  /** The step by which a call returns this. */
  function ReturnStep(s: Client, c: nat, reply: Reply): Step
    requires c < |s.calls|
  {
    match reply
    case Answered(_) => TakeReply(c)
    case MarshalFailed => MarshalFails(c)
    case SendFailed => Unregister(c)
    case ConnectionClosed => SeeClosed(c)
  }

  lemma ReturnsOnce(s: Client, step: Step, c: nat)
    requires Enabled(s, step) && c < |s.calls| && Apply(s, step).calls[c].progress.Returned?
    ensures var reply := Apply(s, step).calls[c].progress.reply;
            || s.calls[c].progress == Returned(reply)
            || (step == ReturnStep(s, c, reply) && !s.calls[c].progress.Returned?
                && (reply.Answered? ==> s.calls[c].slot == Some(reply.w)) && (reply == ConnectionClosed ==> s.closed))
  {
  }

  /** A call returns once, and returns what the step by which it returned stands for. */
  lemma {:induction false} ReturnIsTrue(states: seq<Client>, steps: seq<Step>, k: nat, c: nat) returns (l: nat)
    requires Execution(states, steps) && k < |states| && c < |states[k].calls| && states[k].calls[c].progress.Returned?
    ensures l < k && c < |states[l].calls| && !states[l].calls[c].progress.Returned?
    ensures match states[k].calls[c].progress.reply
            case Answered(w) => steps[l] == TakeReply(c) && states[l].calls[c].slot == Some(w)
            case MarshalFailed => steps[l] == MarshalFails(c)
            case SendFailed => steps[l] == Unregister(c)
            case ConnectionClosed => steps[l] == SeeClosed(c) && states[l].closed
    decreases k
  {
    if k > 0 {
      CallsKeepAsking(states[k - 1], steps[k - 1], c);
      if c < |states[k - 1].calls| {
        ReturnsOnce(states[k - 1], steps[k - 1], c);
        if states[k - 1].calls[c].progress == states[k].calls[c].progress {
          l := ReturnIsTrue(states, steps, k - 1, c);
        } else {
          l := k - 1;
        }
      }
    }
  }

  // -------------------------------------------------------------- notifications

  /** The notifications among some messages, in order. */
  function Notifications(ws: seq<Wire>): seq<Wire> {
    if ws == [] then []
    else if IsNotification(ws[|ws| - 1]) then Notifications(ws[..|ws| - 1]) + [ws[|ws| - 1]]
    else Notifications(ws[..|ws| - 1])
  }

  /** What the consumer has seen or will see if nothing more arrives. */
  function Kept(s: Client): seq<Wire> {
    s.consumed + s.queue
  }

  lemma DeliverKept(s: Client, w: Wire)
    requires Enabled(s, Receive(w))
    ensures IsNotification(w) && |s.queue| < QUEUE_CAPACITY ==> Kept(Deliver(s, w)) == Kept(s) + [w]
    ensures !(IsNotification(w) && |s.queue| < QUEUE_CAPACITY) ==> Kept(Deliver(s, w)) == Kept(s)
  {
  }

  lemma OtherStepsKept(s: Client, step: Step)
    requires Enabled(s, step) && !step.Receive?
    ensures Kept(Apply(s, step)) == Kept(s)
  {
    if step.Consume? {
      assert s.queue == [s.queue[0]] + s.queue[1..];
      assert Kept(Apply(s, step)) == Kept(s);
    }
  }
}
