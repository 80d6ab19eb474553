/**
 * One connection end to end (internal/daemon/client.go, internal/daemon/daemon.go): the client,
 * the stream of requests, the daemon's handler loop answering them in order, broadcasts from
 * other goroutines mixed into the stream back, and the client's read loop.  Both streams carry
 * whole messages, since every write is made under a lock.
 */
module RpcSystem {
  import opened Prelude
  import opened Text
  import C = RpcClient

  type Wire = C.Wire

  /** A request on the wire, with the call that sent it. */
  datatype Sent = Sent(call: nat, request: C.Request)

  /** A response handed to a call: its position in the stream and the call. */
  datatype Delivery = Delivery(position: nat, call: nat)

  /**
   * `up` and `down` are everything ever written in each direction.  The handler has read `taken`
   * requests, made `answers` for them in order and written the first `written`; the client has
   * read the first `read` messages.
   */
  datatype System = System(client: C.Client, up: seq<Sent>, taken: nat, answers: seq<Wire>, written: nat,
                           down: seq<Wire>, read: nat, deliveries: seq<Delivery>)

  datatype Step =
    | ClientMoves(move: C.Step)
    | ClientReads
    | HandlerTakes
    | HandlerAnswers(body: C.Body)
    | HandlerWrites
    | Broadcast(verb: string, params: string)

  function Init(): System {
    System(C.Connect(), [], 0, [], 0, [], 0, [])
  }

  predicate Enabled(s: System, step: Step) {
    match step
    case ClientMoves(move) => !move.Receive? && C.Enabled(s.client, move)
    case ClientReads => s.read < |s.down| && C.Enabled(s.client, C.Receive(s.down[s.read]))
    case HandlerTakes => s.taken == |s.answers| == s.written && s.taken < |s.up|
    case HandlerAnswers(_) => s.taken == |s.answers| + 1 && s.taken <= |s.up|
    case HandlerWrites => |s.answers| == s.written + 1
    case Broadcast(_, _) => true
  }

  /** The message at the read position goes to a waiting channel. */
  predicate Delivers(s: System)
    requires s.read < |s.down|
  {
    C.IsResponse(s.down[s.read]) && s.down[s.read].id in s.client.responses
  }

  function Apply(s: System, step: Step): System
    requires Enabled(s, step)
  {
    match step
    case ClientMoves(move) =>
      s.(client := C.Apply(s.client, move),
         up := match move
               case SendOk(c) =>
                 s.up + [Sent(c, C.Request(s.client.calls[c].id, s.client.calls[c].verb, s.client.calls[c].params))]
               case _ => s.up)
    case ClientReads =>
      s.(client := C.Deliver(s.client, s.down[s.read]), read := s.read + 1,
         deliveries := if Delivers(s)
                       then s.deliveries + [Delivery(s.read, s.client.responses[s.down[s.read].id])]
                       else s.deliveries)
    case HandlerTakes => s.(taken := s.taken + 1)
    case HandlerAnswers(body) => s.(answers := s.answers + [C.Wire(s.up[s.taken - 1].request.id, "", body)])
    case HandlerWrites => s.(down := s.down + [s.answers[s.written]], written := s.written + 1)
    case Broadcast(verb, params) => s.(down := s.down + [C.NewNotification(verb, params)])
  }

  // -------------------------------------------------------------- invariants

  /** IDs count up from 1; below 2^64 calls they are therefore all different and never empty. */
  ghost predicate IdsOk(client: C.Client) {
    && client.nextID == |client.calls| % C.ID_SPACE
    && forall c | 0 <= c < |client.calls| :: client.calls[c].id == Decimal((c + 1) % C.ID_SPACE)
  }

  predicate HasSent(call: C.Call) {
    call.progress == C.Waiting || (call.progress.Returned? && !call.progress.reply.SendFailed? && !call.progress.reply.MarshalFailed?)
  }

  /** Each call writes its own request, at most once. */
  ghost predicate UpOk(calls: seq<C.Call>, up: seq<Sent>) {
    && (forall j | 0 <= j < |up| ::
          && up[j].call < |calls|
          && HasSent(calls[up[j].call])
          && up[j].request == C.Request(calls[up[j].call].id, calls[up[j].call].verb, calls[up[j].call].params))
    && (forall i, j | 0 <= i < j < |up| :: up[i].call != up[j].call)
  }

  /** The responses among some messages, in order. */
  function Responses(ws: seq<Wire>): seq<Wire> {
    if ws == [] then []
    else if C.IsResponse(ws[|ws| - 1]) then Responses(ws[..|ws| - 1]) + [ws[|ws| - 1]]
    else Responses(ws[..|ws| - 1])
  }

  /** Answers are made in order, one per request, and the stream back carries exactly those written. */
  ghost predicate DownOk(s: System) {
    && s.written <= |s.answers| <= s.taken <= s.written + 1 && s.taken <= |s.up|
    && (forall j | 0 <= j < |s.answers| :: s.answers[j].id == s.up[j].request.id)
    && Responses(s.down) == s.answers[..s.written]
    && s.read <= |s.down|
  }

  /** `w` is the answer the daemon made for a request with this ID. */
  ghost predicate AnswerTo(up: seq<Sent>, answers: seq<Wire>, id: string, w: Wire) {
    exists j | 0 <= j < |answers| && j < |up| :: up[j].request.id == id && answers[j] == w
  }

  /** What sits in a call's channel, or what the call returned. */
  ghost predicate Holds(call: C.Call, w: Wire) {
    call.slot == Some(w) || call.progress == C.Returned(C.Answered(w))
  }

  ghost predicate Correlated(calls: seq<C.Call>, up: seq<Sent>, answers: seq<Wire>) {
    forall c, w | 0 <= c < |calls| && Holds(calls[c], w) :: AnswerTo(up, answers, calls[c].id, w)
  }

  ghost predicate DeliveriesOk(s: System) {
    && (forall i | 0 <= i < |s.deliveries| ::
          && s.deliveries[i].position < s.read
          && s.deliveries[i].call < |s.client.calls|
          && s.client.calls[s.deliveries[i].call].progress != C.Numbered
          && forall id | id in s.client.responses :: s.client.responses[id] != s.deliveries[i].call)
    && (forall i, j | 0 <= i < j < |s.deliveries| ::
          && s.deliveries[i].position < s.deliveries[j].position
          && s.deliveries[i].call != s.deliveries[j].call)
  }

  ghost predicate Inv(s: System) {
    && C.Inv(s.client)
    && IdsOk(s.client)
    && UpOk(s.client.calls, s.up)
    && DownOk(s)
    && DeliveriesOk(s)
    && Correlated(s.client.calls, s.up, s.answers)
  }

  lemma InitInv()
    ensures Inv(Init())
  {
  }

  // -------------------------------------------------------------- client steps

  lemma CounterWraps(n: nat)
    ensures (n % C.ID_SPACE + 1) % C.ID_SPACE == (n + 1) % C.ID_SPACE
  {
  }

  lemma IdsKept(client: C.Client, move: C.Step)
    requires IdsOk(client) && C.Enabled(client, move)
    ensures IdsOk(C.Apply(client, move))
  {
    CounterWraps(|client.calls|);
    var client' := C.Apply(client, move);
    assert |client'.calls| == |client.calls| + (if move.NewCall? then 1 else 0);
    forall c | 0 <= c < |client'.calls|
      ensures client'.calls[c].id == Decimal((c + 1) % C.ID_SPACE)
    {
      assert c < |client.calls| ==> client'.calls[c].id == client.calls[c].id;
    }
  }

  lemma IdsInjective(client: C.Client, c: nat, d: nat)
    requires IdsOk(client) && |client.calls| < C.ID_SPACE
    requires c < |client.calls| && d < |client.calls| && client.calls[c].id == client.calls[d].id
    ensures c == d
  {
    DecimalInjective((c + 1) % C.ID_SPACE, (d + 1) % C.ID_SPACE);
  }

  /** A call only moves forward: it keeps its request and stays sent. */
  predicate Advances(call: C.Call, call': C.Call) {
    && call'.id == call.id && call'.verb == call.verb && call'.params == call.params
    && (HasSent(call) ==> HasSent(call'))
    && (call.progress != C.Numbered ==> call'.progress != C.Numbered)
  }

  lemma MovesAdvance(client: C.Client, move: C.Step)
    requires C.Enabled(client, move)
    ensures |client.calls| <= |C.Apply(client, move).calls|
    ensures forall c | 0 <= c < |client.calls| :: Advances(client.calls[c], C.Apply(client, move).calls[c])
  {
  }

  lemma UpAdvances(calls: seq<C.Call>, calls': seq<C.Call>, up: seq<Sent>)
    requires UpOk(calls, up) && |calls| <= |calls'|
    requires forall c | 0 <= c < |calls| :: Advances(calls[c], calls'[c])
    ensures UpOk(calls', up)
  {
  }

  /** What a step other than delivery can make a call hold, it held before. */
  lemma HoldsBefore(client: C.Client, move: C.Step, c: nat, w: Wire)
    requires C.Enabled(client, move) && !move.Receive?
    requires c < |C.Apply(client, move).calls| && Holds(C.Apply(client, move).calls[c], w)
    ensures c < |client.calls| && Holds(client.calls[c], w)
  {
  }

  lemma CorrelatedKept(client: C.Client, move: C.Step, up: seq<Sent>, answers: seq<Wire>, up': seq<Sent>)
    requires C.Enabled(client, move) && !move.Receive?
    requires Correlated(client.calls, up, answers) && up <= up'
    ensures Correlated(C.Apply(client, move).calls, up', answers)
  {
    var calls' := C.Apply(client, move).calls;
    MovesAdvance(client, move);
    forall c, w | 0 <= c < |calls'| && Holds(calls'[c], w)
      ensures AnswerTo(up', answers, calls'[c].id, w)
    {
      HoldsBefore(client, move, c, w);
      assert Advances(client.calls[c], calls'[c]);
      var j :| 0 <= j < |answers| && j < |up| && up[j].request.id == client.calls[c].id && answers[j] == w;
      assert up'[j] == up[j];
    }
  }

  /** No step but `Register` adds to the pending map, and it adds a call that was only numbered. */
  lemma DeliveriesKept(s: System, move: C.Step, s': System)
    requires C.Inv(s.client) && DeliveriesOk(s) && C.Enabled(s.client, move) && !move.Receive?
    requires s' == s.(client := C.Apply(s.client, move), up := s'.up)
    ensures DeliveriesOk(s')
  {
    MovesAdvance(s.client, move);
  }

  lemma ClientKeepsInv(s: System, move: C.Step)
    requires Inv(s) && Enabled(s, ClientMoves(move))
    ensures Inv(Apply(s, ClientMoves(move)))
  {
    var s' := Apply(s, ClientMoves(move));
    C.StepKeepsInv(s.client, move);
    IdsKept(s.client, move);
    MovesAdvance(s.client, move);
    UpAdvances(s.client.calls, s'.client.calls, s.up);
    SendKeepsUp(s, move);
    DeliveriesKept(s, move, s');
    CorrelatedKept(s.client, move, s.up, s.answers, s'.up);
  }

  lemma SendKeepsUp(s: System, move: C.Step)
    requires UpOk(s.client.calls, s.up) && Enabled(s, ClientMoves(move))
    requires UpOk(C.Apply(s.client, move).calls, s.up)
    ensures UpOk(C.Apply(s.client, move).calls, Apply(s, ClientMoves(move)).up)
    ensures s.up <= Apply(s, ClientMoves(move)).up
  {
  }

  // -------------------------------------------------------------- delivery

  /** A response read from the stream is one of the answers. */
  lemma {:induction false} ResponseIsAnswer(down: seq<Wire>, k: nat) returns (j: nat)
    requires k < |down| && C.IsResponse(down[k])
    ensures j < |Responses(down)| && Responses(down)[j] == down[k]
  {
    var n := |down| - 1;
    if k == n {
      j := |Responses(down)| - 1;
    } else {
      j := ResponseIsAnswer(down[..n], k);
    }
  }

  /** The answer at the read position was made for a request with the ID its channel waits for. */
  lemma DeliveredIsAnswer(s: System)
    requires Inv(s) && s.read < |s.down| && Delivers(s)
    ensures AnswerTo(s.up, s.answers, s.down[s.read].id, s.down[s.read])
  {
    var j := ResponseIsAnswer(s.down, s.read);
    assert s.answers[j] == s.down[s.read];
  }

  lemma DeliverKeepsCorrelated(s: System)
    requires Inv(s) && Enabled(s, ClientReads)
    ensures Correlated(C.Deliver(s.client, s.down[s.read]).calls, s.up, s.answers)
  {
    if Delivers(s) {
      DeliveredIsAnswer(s);
    }
    var calls' := C.Deliver(s.client, s.down[s.read]).calls;
    forall c, w | 0 <= c < |calls'| && Holds(calls'[c], w)
      ensures AnswerTo(s.up, s.answers, calls'[c].id, w)
    {
      if !(Delivers(s) && c == s.client.responses[s.down[s.read].id] && w == s.down[s.read]) {
        assert Holds(s.client.calls[c], w);
      }
    }
  }

  lemma ReadKeepsDeliveries(s: System)
    requires C.Inv(s.client) && DeliveriesOk(s) && Enabled(s, ClientReads)
    ensures DeliveriesOk(Apply(s, ClientReads))
  {
  }

  lemma ReadKeepsInv(s: System)
    requires Inv(s) && Enabled(s, ClientReads)
    ensures Inv(Apply(s, ClientReads))
  {
    var s' := Apply(s, ClientReads);
    var receive := C.Receive(s.down[s.read]);
    C.StepKeepsInv(s.client, receive);
    IdsKept(s.client, receive);
    MovesAdvance(s.client, receive);
    UpAdvances(s.client.calls, s'.client.calls, s.up);
    ReadKeepsDeliveries(s);
    DeliverKeepsCorrelated(s);
  }

  // -------------------------------------------------------------- daemon steps

  lemma ResponsesAppend(ws: seq<Wire>, w: Wire)
    ensures Responses(ws + [w]) == if C.IsResponse(w) then Responses(ws) + [w] else Responses(ws)
  {
    assert (ws + [w])[..|ws|] == ws;
  }

  /** More answers never take one away. */
  lemma CorrelatedGrows(calls: seq<C.Call>, up: seq<Sent>, answers: seq<Wire>, w: Wire)
    requires Correlated(calls, up, answers)
    ensures Correlated(calls, up, answers + [w])
  {
    forall c, v | 0 <= c < |calls| && Holds(calls[c], v)
      ensures AnswerTo(up, answers + [w], calls[c].id, v)
    {
      var j :| 0 <= j < |answers| && j < |up| && up[j].request.id == calls[c].id && answers[j] == v;
      assert (answers + [w])[j] == v;
    }
  }

  lemma RequestIdsAreNotEmpty(s: System, j: nat)
    requires Inv(s) && j < |s.up|
    ensures s.up[j].request.id != ""
  {
  }

  lemma AnswerKeepsInv(s: System, body: C.Body)
    requires Inv(s) && Enabled(s, HandlerAnswers(body))
    ensures Inv(Apply(s, HandlerAnswers(body)))
  {
    var w := C.Wire(s.up[s.taken - 1].request.id, "", body);
    assert (s.answers + [w])[..s.written] == s.answers[..s.written];
    CorrelatedGrows(s.client.calls, s.up, s.answers, w);
  }

  lemma WriteKeepsInv(s: System)
    requires Inv(s) && Enabled(s, HandlerWrites)
    ensures Inv(Apply(s, HandlerWrites))
  {
    ResponsesAppend(s.down, s.answers[s.written]);
    RequestIdsAreNotEmpty(s, s.written);
    assert s.answers[..s.written + 1] == s.answers[..s.written] + [s.answers[s.written]];
  }

  lemma BroadcastKeepsInv(s: System, verb: string, params: string)
    requires Inv(s)
    ensures Inv(Apply(s, Broadcast(verb, params)))
  {
    ResponsesAppend(s.down, C.NewNotification(verb, params));
  }

  lemma TakeKeepsInv(s: System)
    requires Inv(s) && Enabled(s, HandlerTakes)
    ensures Inv(Apply(s, HandlerTakes))
  {
  }

  lemma StepKeepsInv(s: System, step: Step)
    requires Inv(s) && Enabled(s, step)
    ensures Inv(Apply(s, step))
  {
    match step
    case ClientMoves(move) => ClientKeepsInv(s, move);
    case ClientReads => ReadKeepsInv(s);
    case HandlerTakes => TakeKeepsInv(s);
    case HandlerAnswers(body) => AnswerKeepsInv(s, body);
    case HandlerWrites => WriteKeepsInv(s);
    case Broadcast(verb, params) => BroadcastKeepsInv(s, verb, params);
  }

  // -------------------------------------------------------------- over every execution

  ghost predicate Execution(states: seq<System>, steps: seq<Step>) {
    && |states| == |steps| + 1 && states[0] == Init()
    && forall i | 0 <= i < |steps| :: Enabled(states[i], steps[i]) && states[i + 1] == Apply(states[i], steps[i])
  }

  lemma {:induction false} Safety(states: seq<System>, steps: seq<Step>, k: nat)
    requires Execution(states, steps) && k < |states|
    ensures Inv(states[k])
    decreases k
  {
    if k > 0 {
      Safety(states, steps, k - 1);
      StepKeepsInv(states[k - 1], steps[k - 1]);
    }
  }

  /**
   * However many calls are made, a call that returns without error returns an answer the daemon
   * made, for a request that carried the call's own ID.
   */
  lemma CallReturnsAnswerToItsID(states: seq<System>, steps: seq<Step>, k: nat, c: nat, w: Wire) returns (j: nat)
    requires Execution(states, steps) && k < |states| && c < |states[k].client.calls|
    requires states[k].client.calls[c].progress == C.Returned(C.Answered(w))
    ensures j < |states[k].up| && j < |states[k].answers| && states[k].answers[j] == w
    ensures w.id == states[k].up[j].request.id == states[k].client.calls[c].id
  {
    Safety(states, steps, k);
    var s := states[k];
    assert Holds(s.client.calls[c], w);
    j :| 0 <= j < |s.answers| && j < |s.up| && s.up[j].request.id == s.client.calls[c].id && s.answers[j] == w;
  }

  lemma OwnAnswer(s: System, c: nat, w: Wire) returns (j: nat)
    requires Inv(s) && c < |s.client.calls| < C.ID_SPACE && s.client.calls[c].progress == C.Returned(C.Answered(w))
    ensures j < |s.up| && j < |s.answers| && s.up[j].call == c && s.answers[j] == w
    ensures forall i | 0 <= i < |s.up| && s.up[i].call == c :: i == j
    ensures s.up[j].request == C.Request(s.client.calls[c].id, s.client.calls[c].verb, s.client.calls[c].params)
  {
    assert Holds(s.client.calls[c], w);
    j :| 0 <= j < |s.answers| && j < |s.up| && s.up[j].request.id == s.client.calls[c].id && s.answers[j] == w;
    IdsInjective(s.client, s.up[j].call, c);
  }

  /** Call `c` was made by step `l`, with this method and these parameters. */
  ghost predicate Asked(states: seq<System>, steps: seq<Step>, l: nat, c: nat, verb: string, params: string) {
    l < |steps| < |states| && steps[l] == ClientMoves(C.NewCall(verb, params)) && c == |states[l].client.calls|
  }

  lemma CallsStep(s: System, step: Step, c: nat)
    requires Enabled(s, step) && c < |Apply(s, step).client.calls|
    ensures |s.client.calls| <= |Apply(s, step).client.calls|
    ensures if c < |s.client.calls|
            then Apply(s, step).client.calls[c].verb == s.client.calls[c].verb
                 && Apply(s, step).client.calls[c].params == s.client.calls[c].params
            else c == |s.client.calls|
                 && step == ClientMoves(C.NewCall(Apply(s, step).client.calls[c].verb, Apply(s, step).client.calls[c].params))
  {
    match step
    case ClientMoves(move) => C.CallsKeepAsking(s.client, move, c);
    case ClientReads => C.CallsKeepAsking(s.client, C.Receive(s.down[s.read]), c);
    case _ =>
  }

  /** Every call goes back to the step that made it. */
  lemma {:induction false} CallOrigin(states: seq<System>, steps: seq<Step>, k: nat, c: nat) returns (l: nat)
    requires Execution(states, steps) && k < |states| && c < |states[k].client.calls|
    ensures l < k && Asked(states, steps, l, c, states[k].client.calls[c].verb, states[k].client.calls[c].params)
    decreases k
  {
    if k > 0 {
      CallsStep(states[k - 1], steps[k - 1], c);
      if c < |states[k - 1].client.calls| {
        l := CallOrigin(states, steps, k - 1, c);
      } else {
        l := k - 1;
      }
    }
  }

  /** What was asked stays what the call asks. */
  lemma {:induction false} StaysAsked(states: seq<System>, steps: seq<Step>, l: nat, k: nat, c: nat, verb: string, params: string)
    requires Execution(states, steps) && Asked(states, steps, l, c, verb, params) && l < k < |states|
    ensures c < |states[k].client.calls| && states[k].client.calls[c].verb == verb && states[k].client.calls[c].params == params
    decreases k
  {
    if l + 1 < k {
      StaysAsked(states, steps, l, k - 1, c, verb, params);
      CallsOnlyGrow(states[k - 1], steps[k - 1]);
      CallsStep(states[k - 1], steps[k - 1], c);
    }
  }

  /** What is on the wire is what some caller asked for, under the call's number. */
  lemma RequestIsAsAsked(states: seq<System>, steps: seq<Step>, k: nat, j: nat) returns (l: nat)
    requires Execution(states, steps) && k < |states| && j < |states[k].up|
    ensures l < k && Asked(states, steps, l, states[k].up[j].call, states[k].up[j].request.verb, states[k].up[j].request.params)
    ensures states[k].up[j].request.id == Decimal((states[k].up[j].call + 1) % 0x1_0000_0000_0000_0000)
  {
    Safety(states, steps, k);
    l := CallOrigin(states, steps, k, states[k].up[j].call);
  }

  /**
   * End to end: below 2^64 calls, a call that returns without error returns the very answer the
   * daemon made for the one request that call sent, which carried the method and the parameters
   * the caller gave, for any mixing with broadcasts and other calls.
   */
  lemma CallReturnsItsOwnAnswer(states: seq<System>, steps: seq<Step>, l: nat, k: nat, c: nat, verb: string, params: string, w: Wire)
    returns (j: nat)
    requires Execution(states, steps) && Asked(states, steps, l, c, verb, params) && l < k < |states|
    requires c < |states[k].client.calls| < C.ID_SPACE
    requires states[k].client.calls[c].progress == C.Returned(C.Answered(w))
    ensures j < |states[k].up| && j < |states[k].answers|
    ensures states[k].up[j].call == c && states[k].answers[j] == w
    ensures states[k].up[j].request.verb == verb && states[k].up[j].request.params == params
    ensures w.id == states[k].up[j].request.id
    ensures forall i | 0 <= i < |states[k].up| && states[k].up[i].call == c :: i == j
  {
    Safety(states, steps, k);
    StaysAsked(states, steps, l, k, c, verb, params);
    j := OwnAnswer(states[k], c, w);
  }

  // -------------------------------------------------------------- errors of a call

  /** Every call that has sent its request has it on the wire. */
  ghost predicate SentIsUp(calls: seq<C.Call>, up: seq<Sent>) {
    forall c | 0 <= c < |calls| && HasSent(calls[c]) :: exists j | 0 <= j < |up| :: up[j].call == c
  }

  lemma UpGrows(up: seq<Sent>, up': seq<Sent>, c: nat)
    requires up <= up' && exists j | 0 <= j < |up| :: up[j].call == c
    ensures exists j | 0 <= j < |up'| :: up'[j].call == c
  {
    var j :| 0 <= j < |up| && up[j].call == c;
    assert up'[j].call == c;
  }

  /** A call comes to have sent its request only by a send that succeeds. */
  lemma SendingSends(client: C.Client, move: C.Step, c: nat)
    requires C.Enabled(client, move) && c < |C.Apply(client, move).calls| && HasSent(C.Apply(client, move).calls[c])
    ensures c < |client.calls| && (HasSent(client.calls[c]) || move == C.SendOk(c))
  {
  }

  lemma MoveKeepsSentIsUp(s: System, move: C.Step)
    requires SentIsUp(s.client.calls, s.up) && Enabled(s, ClientMoves(move))
    ensures SentIsUp(Apply(s, ClientMoves(move)).client.calls, Apply(s, ClientMoves(move)).up)
  {
    var s' := Apply(s, ClientMoves(move));
    forall c | 0 <= c < |s'.client.calls| && HasSent(s'.client.calls[c])
      ensures exists j | 0 <= j < |s'.up| :: s'.up[j].call == c
    {
      SendingSends(s.client, move, c);
      if move == C.SendOk(c) {
        assert s'.up[|s.up|].call == c;
      } else {
        UpGrows(s.up, s'.up, c);
      }
    }
  }

  lemma ReadKeepsSentIsUp(s: System)
    requires SentIsUp(s.client.calls, s.up) && Enabled(s, ClientReads)
    ensures SentIsUp(Apply(s, ClientReads).client.calls, s.up)
  {
    var calls' := Apply(s, ClientReads).client.calls;
    forall c | 0 <= c < |calls'| && HasSent(calls'[c])
      ensures exists j | 0 <= j < |s.up| :: s.up[j].call == c
    {
      SendingSends(s.client, C.Receive(s.down[s.read]), c);
    }
  }

  lemma {:induction false} SentIsUpAt(states: seq<System>, steps: seq<Step>, k: nat)
    requires Execution(states, steps) && k < |states|
    ensures SentIsUp(states[k].client.calls, states[k].up)
    decreases k
  {
    if k > 0 {
      SentIsUpAt(states, steps, k - 1);
      match steps[k - 1]
      case ClientMoves(move) => MoveKeepsSentIsUp(states[k - 1], move);
      case ClientReads => ReadKeepsSentIsUp(states[k - 1]);
      case _ =>
    }
  }

  /**
   * The error of a call says whether its request went out: a marshalling or sending error means
   * that it is not on the wire, an answer or a closed connection that it is.
   */
  lemma CallErrorsAreTrue(states: seq<System>, steps: seq<Step>, k: nat, c: nat)
    requires Execution(states, steps) && k < |states| && c < |states[k].client.calls|
    requires states[k].client.calls[c].progress.Returned?
    ensures (exists j | 0 <= j < |states[k].up| :: states[k].up[j].call == c) <==>
            states[k].client.calls[c].progress.reply != C.MarshalFailed && states[k].client.calls[c].progress.reply != C.SendFailed
  {
    Safety(states, steps, k);
    SentIsUpAt(states, steps, k);
  }

  /** No message is handed to two calls and no call is handed two messages. */
  lemma NothingDeliveredTwice(states: seq<System>, steps: seq<Step>, k: nat, i: nat, j: nat)
    requires Execution(states, steps) && k < |states| && i < j < |states[k].deliveries|
    ensures states[k].deliveries[i].position != states[k].deliveries[j].position
    ensures states[k].deliveries[i].call != states[k].deliveries[j].call
  {
    Safety(states, steps, k);
  }

  /** The daemon answers one connection's requests in the order they were sent. */
  lemma AnswersInOrder(states: seq<System>, steps: seq<Step>, k: nat)
    requires Execution(states, steps) && k < |states|
    ensures var s := states[k]; s.written <= |s.answers| <= |s.up| && Responses(s.down) == s.answers[..s.written]
    ensures forall j | 0 <= j < |states[k].answers| :: states[k].answers[j].id == states[k].up[j].request.id
  {
    Safety(states, steps, k);
  }

  // -------------------------------------------------------------- no answer is lost

  /** A call that still awaits its answer is in the pending map. */
  ghost predicate Present(calls: seq<C.Call>, responses: map<string, nat>) {
    forall c | 0 <= c < |calls| && calls[c].progress in {C.Registered, C.Undoing, C.Waiting} && calls[c].slot == None ::
      calls[c].id in responses && responses[calls[c].id] == c
  }

  ghost predicate IdsDiffer(calls: seq<C.Call>) {
    forall c, d | 0 <= c < d < |calls| :: calls[c].id != calls[d].id
  }

  lemma IdsOkDiffer(client: C.Client)
    requires IdsOk(client) && |client.calls| < C.ID_SPACE
    ensures IdsDiffer(client.calls)
  {
    forall c, d | 0 <= c < d < |client.calls|
      ensures client.calls[c].id != client.calls[d].id
    {
      if client.calls[c].id == client.calls[d].id {
        IdsInjective(client, c, d);
      }
    }
  }

  lemma PresentKept(client: C.Client, move: C.Step)
    requires C.Pending(client.calls, client.responses) && IdsDiffer(client.calls) && C.Enabled(client, move)
    requires Present(client.calls, client.responses)
    ensures Present(C.Apply(client, move).calls, C.Apply(client, move).responses)
  {
  }

  lemma {:induction false} ResponsesPrefix(ws: seq<Wire>, n: nat)
    requires n <= |ws|
    ensures Responses(ws[..n]) <= Responses(ws)
    decreases |ws|
  {
    if n < |ws| {
      var front := ws[..|ws| - 1];
      assert front[..n] == ws[..n];
      ResponsesPrefix(front, n);
    } else {
      assert ws[..n] == ws;
    }
  }

  /** The call has its answer or has given up. */
  predicate Resolved(call: C.Call) {
    call.slot.Some? || call.progress.Returned?
  }

  ghost predicate NoneLost(s: System) {
    && s.read <= |s.down|
    && forall j | 0 <= j < |Responses(s.down[..s.read])| ::
         j < |s.up| && s.up[j].call < |s.client.calls| && Resolved(s.client.calls[s.up[j].call])
  }

  lemma MovesResolve(client: C.Client, move: C.Step, c: nat)
    requires C.Enabled(client, move) && c < |client.calls| && Resolved(client.calls[c])
    ensures c < |C.Apply(client, move).calls| && Resolved(C.Apply(client, move).calls[c])
  {
  }

  /** The next response on the stream is the next answer. */
  lemma NextAnswer(s: System)
    requires DownOk(s) && s.read < |s.down| && C.IsResponse(s.down[s.read])
    ensures var seen := Responses(s.down[..s.read]);
            && Responses(s.down[..s.read + 1]) == seen + [s.down[s.read]]
            && |seen| < |s.answers| && s.answers[|seen|] == s.down[s.read]
  {
    var w := s.down[s.read];
    ResponsesAppend(s.down[..s.read], w);
    assert s.down[..s.read + 1] == s.down[..s.read] + [w];
    ResponsesPrefix(s.down, s.read + 1);
    assert Responses(s.down)[|Responses(s.down[..s.read])|] == w;
  }

  /** Delivering a response with the ID of a call that has sent its request resolves that call. */
  lemma DeliveryResolves(client: C.Client, c: nat, w: Wire)
    requires C.Enabled(client, C.Receive(w)) && Present(client.calls, client.responses)
    requires c < |client.calls| && HasSent(client.calls[c]) && w.id == client.calls[c].id != ""
    ensures Resolved(C.Deliver(client, w).calls[c])
  {
  }

  lemma ReadKeepsNoneLost(s: System)
    requires UpOk(s.client.calls, s.up) && DownOk(s) && Present(s.client.calls, s.client.responses)
    requires NoneLost(s) && Enabled(s, ClientReads)
    ensures NoneLost(Apply(s, ClientReads))
  {
    var w := s.down[s.read];
    var calls', seen := C.Deliver(s.client, w).calls, Responses(s.down[..s.read]);
    forall j | 0 <= j < |seen|
      ensures j < |s.up| && s.up[j].call < |calls'| && Resolved(calls'[s.up[j].call])
    {
      MovesResolve(s.client, C.Receive(w), s.up[j].call);
    }
    if C.IsResponse(w) {
      NextAnswer(s);
      DeliveryResolves(s.client, s.up[|seen|].call, w);
    } else {
      ResponsesAppend(s.down[..s.read], w);
      assert s.down[..s.read + 1] == s.down[..s.read] + [w];
    }
  }

  lemma MoveKeepsNoneLost(s: System, move: C.Step)
    requires NoneLost(s) && Enabled(s, ClientMoves(move))
    ensures NoneLost(Apply(s, ClientMoves(move)))
  {
    var s' := Apply(s, ClientMoves(move));
    forall j | 0 <= j < |Responses(s.down[..s.read])|
      ensures j < |s'.up| && s'.up[j].call < |s'.client.calls| && Resolved(s'.client.calls[s'.up[j].call])
    {
      assert s'.up[j] == s.up[j];
      MovesResolve(s.client, move, s.up[j].call);
    }
  }

  lemma DaemonKeepsNoneLost(s: System, step: Step)
    requires NoneLost(s) && Enabled(s, step) && !step.ClientMoves? && !step.ClientReads?
    ensures NoneLost(Apply(s, step))
  {
    assert Apply(s, step).down[..s.read] == s.down[..s.read];
  }

  lemma CallsOnlyGrow(s: System, step: Step)
    requires Enabled(s, step)
    ensures |s.client.calls| <= |Apply(s, step).client.calls|
  {
  }

  /**
   * Below 2^64 calls no answer is lost: once the read loop has passed the answer to a request,
   * the call that sent the request has it or has already returned.
   */
  lemma {:induction false} NoAnswerLost(states: seq<System>, steps: seq<Step>, k: nat)
    requires Execution(states, steps) && k < |states| && |states[k].client.calls| < C.ID_SPACE
    ensures Present(states[k].client.calls, states[k].client.responses) && NoneLost(states[k])
    decreases k
  {
    if k > 0 {
      var s, step := states[k - 1], steps[k - 1];
      Safety(states, steps, k - 1);
      CallsOnlyGrow(s, step);
      NoAnswerLost(states, steps, k - 1);
      IdsOkDiffer(s.client);
      match step
      case ClientMoves(move) =>
        MoveKeepsNoneLost(s, move);
        PresentKept(s.client, move);
      case ClientReads =>
        ReadKeepsNoneLost(s);
        PresentKept(s.client, C.Receive(s.down[s.read]));
      case _ =>
        DaemonKeepsNoneLost(s, step);
    }
  }

  // -------------------------------------------------------------- notifications

  lemma NotificationsAppend(ws: seq<Wire>, w: Wire)
    ensures C.Notifications(ws + [w]) == if C.IsNotification(w) then C.Notifications(ws) + [w] else C.Notifications(ws)
  {
    assert (ws + [w])[..|ws|] == ws;
  }

  lemma {:induction false} NotificationsPrefix(ws: seq<Wire>, n: nat)
    requires n <= |ws|
    ensures C.Notifications(ws[..n]) <= C.Notifications(ws)
    decreases |ws|
  {
    if n < |ws| {
      var front := ws[..|ws| - 1];
      assert front[..n] == ws[..n];
      NotificationsPrefix(front, n);
    } else {
      assert ws[..n] == ws;
    }
  }

  /** The notifications the read loop has come across. */
  function Seen(s: System): seq<Wire>
    requires s.read <= |s.down|
  {
    C.Notifications(s.down[..s.read])
  }

  /** A step either changes neither side, or the read loop comes across one more notification. */
  lemma SeenStep(s: System, step: Step)
    requires s.read <= |s.down| && Enabled(s, step)
    ensures Apply(s, step).read <= |Apply(s, step).down|
    ensures step != ClientReads ==>
              Seen(Apply(s, step)) == Seen(s) && C.Kept(Apply(s, step).client) == C.Kept(s.client)
    ensures step == ClientReads ==>
              var w := s.down[s.read];
              && Seen(Apply(s, step)) == (if C.IsNotification(w) then Seen(s) + [w] else Seen(s))
              && C.Kept(Apply(s, step).client)
                 == if C.IsNotification(w) && |s.client.queue| < C.QUEUE_CAPACITY then C.Kept(s.client) + [w] else C.Kept(s.client)
  {
    var s' := Apply(s, step);
    match step
    case ClientMoves(move) =>
      C.OtherStepsKept(s.client, move);
    case ClientReads =>
      var w := s.down[s.read];
      assert s'.down[..s'.read] == s.down[..s.read] + [w];
      NotificationsAppend(s.down[..s.read], w);
      C.DeliverKept(s.client, w);
    case _ =>
      assert s'.down[..s.read] == s.down[..s.read];
  }

  lemma StepKeepsWithin(s: System, step: Step)
    requires s.read <= |s.down| && Enabled(s, step) && Subsequence(C.Kept(s.client), Seen(s))
    ensures Apply(s, step).read <= |Apply(s, step).down|
    ensures Subsequence(C.Kept(Apply(s, step).client), Seen(Apply(s, step)))
  {
    SeenStep(s, step);
    if step == ClientReads && C.IsNotification(s.down[s.read]) {
      SubsequenceSkip(C.Kept(s.client), Seen(s), s.down[s.read]);
      SubsequenceKeep(C.Kept(s.client), Seen(s), s.down[s.read]);
    }
  }

  lemma {:induction false} KeptWithinSeen(states: seq<System>, steps: seq<Step>, k: nat)
    requires Execution(states, steps) && k < |states|
    ensures states[k].read <= |states[k].down|
    ensures Subsequence(C.Kept(states[k].client), Seen(states[k]))
    decreases k
  {
    if k > 0 {
      KeptWithinSeen(states, steps, k - 1);
      StepKeepsWithin(states[k - 1], steps[k - 1]);
    }
  }

  /**
   * For every client, the notifications consumed so far followed by those queued are an in-order
   * subsequence of those written to its connection, and at most a hundred are queued.
   */
  lemma NotificationsInOrder(states: seq<System>, steps: seq<Step>, k: nat)
    requires Execution(states, steps) && k < |states|
    ensures Subsequence(states[k].client.consumed + states[k].client.queue, C.Notifications(states[k].down))
    ensures |states[k].client.queue| <= 100
  {
    Safety(states, steps, k);
    KeptWithinSeen(states, steps, k);
    NotificationsPrefix(states[k].down, states[k].read);
    SubsequenceExtend(C.Kept(states[k].client), Seen(states[k]), C.Notifications(states[k].down));
  }

  /** The read loop comes across a notification while a hundred are queued. */
  ghost predicate Drops(s: System, step: Step) {
    step == ClientReads && s.read < |s.down| && C.IsNotification(s.down[s.read]) && |s.client.queue| >= C.QUEUE_CAPACITY
  }

  ghost predicate NoDrops(states: seq<System>, steps: seq<Step>, k: nat) {
    k <= |steps| < |states| && forall i | 0 <= i < k :: !Drops(states[i], steps[i])
  }

  /**
   * The consumer has seen or will see every notification read so far exactly when none of them
   * was read with a hundred queued; one that was is missing for good.
   */
  lemma {:induction false} NothingDropped(states: seq<System>, steps: seq<Step>, k: nat)
    requires Execution(states, steps) && k < |states|
    ensures states[k].read <= |states[k].down|
    ensures C.Kept(states[k].client) == Seen(states[k]) <==> NoDrops(states, steps, k)
    ensures !NoDrops(states, steps, k) ==> |C.Kept(states[k].client)| < |Seen(states[k])|
    decreases k
  {
    if k > 0 {
      NothingDropped(states, steps, k - 1);
      SeenStep(states[k - 1], steps[k - 1]);
      assert NoDrops(states, steps, k) <==> NoDrops(states, steps, k - 1) && !Drops(states[k - 1], steps[k - 1]);
    }
  }
}
