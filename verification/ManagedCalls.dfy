/**
 * A client's stop and status calls against the tunnel manager (internal/daemon/client.go,
 * internal/daemon/handlers.go, internal/tunnel/manager.go): one connection and the manager running
 * together.  The handler answers these two requests by one region of the manager; every other
 * request, every other client and every goroutine of the manager is free to interleave.
 */
module ManagedCalls {
  import opened Prelude
  import opened ManagerMemory
  import M = ManagerMachine
  import MT = ManagerTheorems
  import E = ErrorText
  import H = Handlers
  import C = RpcClient
  import R = RpcSystem

  const STOP := "tunnel.stop"
  const STATUS := "tunnel.status"

  datatype State = State(manager: M.Machine, link: R.System)

  datatype Step =
    | ManagerMoves(move: M.Step)
    | LinkMoves(event: R.Step)
    | HandlerReplies

  /** How parameters are read, results written and characters quoted. */
  datatype Format = Format(name: string -> Option<string>, result: (Status, string) -> string, printable: char -> bool)

  function Init(cfg: seq<TunnelConfig>): State {
    State(M.Init(cfg), R.Init())
  }

  predicate IsManaged(verb: string) {
    verb == STOP || verb == STATUS
  }

  predicate Handling(link: R.System) {
    link.taken == |link.answers| + 1 && link.taken <= |link.up|
  }

  /** The request the handler works on. */
  function Current(link: R.System): C.Request
    requires Handling(link)
  {
    link.up[link.taken - 1].request
  }

  ghost predicate Enabled(p: State, step: Step)
    requires M.Shape(p.manager)
  {
    match step
    case ManagerMoves(move) => M.Enabled(p.manager, move)
    case LinkMoves(event) =>
      R.Enabled(p.link, event) && (event.HandlerAnswers? ==> !IsManaged(Current(p.link).verb))
    case HandlerReplies => Handling(p.link) && IsManaged(Current(p.link).verb)
  }

  function Reply(outcome: H.Outcome, data: string, message: string): C.Body {
    match outcome
    case Success => C.Result(data)
    case Fail(code) => C.Fault(code, message)
  }

  /** What a request without a usable name is told. */
  function NameMessage(name: Option<string>): string {
    if name == None then "invalid params" else "name is required"
  }

  function StopMessage(m: Memory, name: Option<string>, format: Format): string
    requires Sound(m)
  {
    if name == None || name.value == "" then NameMessage(name)
    else match StopError(m, name.value)
      case None => ""
      case Some(e) => E.ErrorMessage(e, format.printable)
  }

  function StatusMessage(name: Option<string>): string {
    if name == None || name.value == "" then NameMessage(name) else NOT_FOUND_TEXT
  }

  /** What the handler answers. */
  function Answer(m: Memory, request: C.Request, format: Format): C.Body
    requires Sound(m)
  {
    var name := format.name(request.params);
    if request.verb == STOP then Reply(H.HandleStop(m, name, format.printable), "", StopMessage(m, name, format))
    else
      var (status, error) := StatusOf(m, if name == None then "" else name.value);
      Reply(H.HandleStatus(m, name), format.result(status, error), StatusMessage(name))
  }

  /** What the handler does to the manager. */
  ghost function Effect(m: M.Machine, request: C.Request, format: Format): M.Machine
    requires M.Shape(m)
  {
    var name := format.name(request.params);
    if request.verb == STOP && name.Some? && name.value != "" then M.Apply(m, M.StopCalled(name.value)) else m
  }

  ghost function Apply(p: State, format: Format, step: Step): State
    requires M.Shape(p.manager) && Enabled(p, step)
  {
    match step
    case ManagerMoves(move) => p.(manager := M.Apply(p.manager, move))
    case LinkMoves(event) => p.(link := R.Apply(p.link, event))
    case HandlerReplies =>
      State(Effect(p.manager, Current(p.link), format),
            R.Apply(p.link, R.HandlerAnswers(Answer(p.manager.mem, Current(p.link), format))))
  }

  ghost predicate Execution(cfg: seq<TunnelConfig>, format: Format, states: seq<State>, steps: seq<Step>) {
    && |states| == |steps| + 1 && states[0] == Init(cfg)
    && forall l | 0 <= l < |steps| ::
         M.Shape(states[l].manager) && Enabled(states[l], steps[l]) && states[l + 1] == Apply(states[l], format, steps[l])
  }

  // -------------------------------------------------------------- both parts behave as they do alone

  ghost predicate Inv(p: State, cfg: seq<TunnelConfig>) {
    MT.Reachable(cfg, p.manager) && M.Shape(p.manager) && R.Inv(p.link)
  }

  lemma StepKeepsInv(p: State, cfg: seq<TunnelConfig>, format: Format, step: Step)
    requires Inv(p, cfg) && Enabled(p, step)
    ensures Inv(Apply(p, format, step), cfg)
  {
    match step
    case ManagerMoves(move) => MT.ReachNext(cfg, p.manager, move);
    case LinkMoves(event) => R.StepKeepsInv(p.link, event);
    case HandlerReplies =>
      var request := Current(p.link);
      R.StepKeepsInv(p.link, R.HandlerAnswers(Answer(p.manager.mem, request, format)));
      var name := format.name(request.params);
      if request.verb == STOP && name.Some? && name.value != "" {
        MT.ReachNext(cfg, p.manager, M.StopCalled(name.value));
      }
  }

  lemma {:induction false} Safety(cfg: seq<TunnelConfig>, format: Format, states: seq<State>, steps: seq<Step>, k: nat)
    requires Execution(cfg, format, states, steps) && k < |states|
    ensures Inv(states[k], cfg)
    decreases k
  {
    if k == 0 {
      MT.InitReachable(cfg);
      R.InitInv();
    } else {
      Safety(cfg, format, states, steps, k - 1);
      StepKeepsInv(states[k - 1], cfg, format, steps[k - 1]);
    }
  }

  // -------------------------------------------------------------- when a request was answered

  /** Requests and answers, once written, stay; only `HandlerReplies` answers a managed request. */
  lemma AnswersGrow(link: R.System, event: R.Step)
    requires R.Enabled(link, event)
    ensures link.up <= R.Apply(link, event).up
    ensures R.Apply(link, event).answers == link.answers
            + match event case HandlerAnswers(body) => [C.Wire(link.up[link.taken - 1].request.id, "", body)] case _ => []
  {
  }

  /** At step `l` the handler made answer `j`, in one region of the manager. */
  ghost predicate AnsweredAt(format: Format, states: seq<State>, steps: seq<Step>, l: nat, j: nat, body: C.Body) {
    && l < |steps| < |states| && M.Shape(states[l].manager) && steps[l].HandlerReplies?
    && Handling(states[l].link) && states[l].link.taken == j + 1
    && body == Answer(states[l].manager.mem, Current(states[l].link), format)
    && states[l + 1].manager == Effect(states[l].manager, Current(states[l].link), format)
  }

  /** The link at `k` extends the link at `l`. */
  predicate Extends(link: R.System, link': R.System) {
    link.up <= link'.up && link.answers <= link'.answers
  }

  lemma StepExtends(p: State, format: Format, step: Step)
    requires M.Shape(p.manager) && Enabled(p, step)
    ensures Extends(p.link, Apply(p, format, step).link)
    ensures |Apply(p, format, step).link.answers| <= |p.link.answers| + 1
  {
    match step
    case ManagerMoves(_) =>
    case LinkMoves(event) => AnswersGrow(p.link, event);
    case HandlerReplies =>
      AnswersGrow(p.link, R.HandlerAnswers(Answer(p.manager.mem, Current(p.link), format)));
  }

  /** The step that makes an answer to a managed request. */
  lemma NewAnswer(format: Format, states: seq<State>, steps: seq<Step>, l: nat)
    requires l < |steps| < |states| && M.Shape(states[l].manager) && Enabled(states[l], steps[l])
    requires states[l + 1] == Apply(states[l], format, steps[l])
    requires |states[l + 1].link.answers| == |states[l].link.answers| + 1
    ensures Handling(states[l].link)
    ensures IsManaged(Current(states[l].link).verb) ==>
              AnsweredAt(format, states, steps, l, |states[l].link.answers|, states[l + 1].link.answers[|states[l].link.answers|].body)
  {
    var p := states[l];
    match steps[l]
    case LinkMoves(event) => AnswersGrow(p.link, event);
    case HandlerReplies =>
      AnswersGrow(p.link, R.HandlerAnswers(Answer(p.manager.mem, Current(p.link), format)));
    case _ =>
  }

  lemma AnsweredNow(cfg: seq<TunnelConfig>, format: Format, states: seq<State>, steps: seq<Step>, l: nat, j: nat)
    requires Execution(cfg, format, states, steps) && l < |steps|
    requires j == |states[l].link.answers| < |states[l + 1].link.answers|
    requires j < |states[l + 1].link.up| && IsManaged(states[l + 1].link.up[j].request.verb)
    ensures AnsweredAt(format, states, steps, l, j, states[l + 1].link.answers[j].body)
    ensures Current(states[l].link) == states[l + 1].link.up[j].request
  {
    StepExtends(states[l], format, steps[l]);
    NewAnswer(format, states, steps, l);
  }

  lemma AnswersWithinUp(cfg: seq<TunnelConfig>, format: Format, states: seq<State>, steps: seq<Step>, k: nat)
    requires Execution(cfg, format, states, steps) && k < |states|
    ensures |states[k].link.answers| <= |states[k].link.up|
  {
    Safety(cfg, format, states, steps, k);
  }

  /** What the step at `i` does to requests and answers. */
  ghost predicate AnswerLaw(format: Format, states: seq<State>, steps: seq<Step>, i: nat)
    requires i < |steps| < |states|
  {
    var link, link' := states[i].link, states[i + 1].link;
    && Extends(link, link') && |link'.answers| <= |link.answers| + 1 && |link.answers| <= |link.up|
    && (|link.answers| < |link'.answers| && |link.answers| < |link'.up| && IsManaged(link'.up[|link.answers|].request.verb) ==>
          && AnsweredAt(format, states, steps, i, |link.answers|, link'.answers[|link.answers|].body)
          && Current(link) == link'.up[|link.answers|].request)
  }

  lemma StepHasAnswerLaw(cfg: seq<TunnelConfig>, format: Format, states: seq<State>, steps: seq<Step>, i: nat)
    requires Execution(cfg, format, states, steps) && i < |steps|
    ensures AnswerLaw(format, states, steps, i)
  {
    var link, link' := states[i].link, states[i + 1].link;
    StepExtends(states[i], format, steps[i]);
    AnswersWithinUp(cfg, format, states, steps, i);
    if |link.answers| < |link'.answers| && |link.answers| < |link'.up| && IsManaged(link'.up[|link.answers|].request.verb) {
      AnsweredNow(cfg, format, states, steps, i, |link.answers|);
    }
  }

  lemma {:induction false} FindAnswer(format: Format, states: seq<State>, steps: seq<Step>, k: nat, j: nat) returns (l: nat)
    requires k < |states| == |steps| + 1 && states[0].link == R.Init()
    requires forall i | 0 <= i < k :: AnswerLaw(format, states, steps, i)
    requires j < |states[k].link.answers| && j < |states[k].link.up| && IsManaged(states[k].link.up[j].request.verb)
    ensures l < k && AnsweredAt(format, states, steps, l, j, states[k].link.answers[j].body)
    ensures Current(states[l].link) == states[k].link.up[j].request
    decreases k
  {
    if k > 0 {
      assert AnswerLaw(format, states, steps, k - 1);
      if j < |states[k - 1].link.answers| {
        l := FindAnswer(format, states, steps, k - 1, j);
      } else {
        l := k - 1;
      }
    }
  }

  /** Every answer to a stop or status request was made at some step after the request was sent. */
  lemma WhenAnswered(cfg: seq<TunnelConfig>, format: Format, states: seq<State>, steps: seq<Step>, k: nat, j: nat) returns (l: nat)
    requires Execution(cfg, format, states, steps) && k < |states|
    requires j < |states[k].link.answers| && j < |states[k].link.up| && IsManaged(states[k].link.up[j].request.verb)
    ensures l < k && AnsweredAt(format, states, steps, l, j, states[k].link.answers[j].body)
    ensures Current(states[l].link) == states[k].link.up[j].request
  {
    forall i | 0 <= i < k
      ensures AnswerLaw(format, states, steps, i)
    {
      StepHasAnswerLaw(cfg, format, states, steps, i);
    }
    l := FindAnswer(format, states, steps, k, j);
  }

  // -------------------------------------------------------------- what the caller can conclude

  /** Call `c` was made by step `i` and has returned `w` at `k`. */
  ghost predicate Called(states: seq<State>, steps: seq<Step>, i: nat, k: nat, c: nat, verb: string, params: string, w: C.Wire) {
    && i < k < |states| == |steps| + 1
    && steps[i] == LinkMoves(R.ClientMoves(C.NewCall(verb, params))) && c == |states[i].link.client.calls|
    && c < |states[k].link.client.calls| < C.ID_SPACE
    && states[k].link.client.calls[c].progress == C.Returned(C.Answered(w))
  }

  lemma CallsStep(p: State, format: Format, step: Step, c: nat)
    requires M.Shape(p.manager) && Enabled(p, step) && c < |p.link.client.calls|
    ensures |p.link.client.calls| <= |Apply(p, format, step).link.client.calls|
    ensures Apply(p, format, step).link.client.calls[c].verb == p.link.client.calls[c].verb
    ensures Apply(p, format, step).link.client.calls[c].params == p.link.client.calls[c].params
  {
    match step
    case LinkMoves(event) =>
      R.CallsOnlyGrow(p.link, event);
      R.CallsStep(p.link, event, c);
    case _ =>
  }

  lemma {:induction false} StaysAsked(cfg: seq<TunnelConfig>, format: Format, states: seq<State>, steps: seq<Step>, i: nat, k: nat,
                                      c: nat, verb: string, params: string)
    requires Execution(cfg, format, states, steps) && i < k < |states|
    requires steps[i] == LinkMoves(R.ClientMoves(C.NewCall(verb, params))) && c == |states[i].link.client.calls|
    ensures c < |states[k].link.client.calls|
    ensures states[k].link.client.calls[c].verb == verb && states[k].link.client.calls[c].params == params
    decreases k
  {
    if i + 1 < k {
      StaysAsked(cfg, format, states, steps, i, k - 1, c, verb, params);
      CallsStep(states[k - 1], format, steps[k - 1], c);
    }
  }

  lemma CallsGrowStep(p: State, format: Format, step: Step)
    requires M.Shape(p.manager) && Enabled(p, step)
    ensures |p.link.client.calls| <= |Apply(p, format, step).link.client.calls|
  {
    if step.LinkMoves? {
      R.CallsOnlyGrow(p.link, step.event);
    }
  }

  lemma {:induction false} NeverFewer(states: seq<State>, l: nat, k: nat)
    requires l <= k < |states|
    requires forall i | l <= i < k :: |states[i].link.client.calls| <= |states[i + 1].link.client.calls|
    ensures |states[l].link.client.calls| <= |states[k].link.client.calls|
    decreases k
  {
    if l < k {
      NeverFewer(states, l, k - 1);
    }
  }

  lemma CallsGrow(cfg: seq<TunnelConfig>, format: Format, states: seq<State>, steps: seq<Step>, l: nat, k: nat)
    requires Execution(cfg, format, states, steps) && l <= k < |states|
    ensures |states[l].link.client.calls| <= |states[k].link.client.calls|
  {
    forall i | l <= i < k
      ensures |states[i].link.client.calls| <= |states[i + 1].link.client.calls|
    {
      CallsGrowStep(states[i], format, steps[i]);
    }
    NeverFewer(states, l, k);
  }

  /**
   * Step `l` answers call `c`: the handler works on that call's request, with the method and the
   * parameters the caller gave, and `body` is the answer.
   */
  ghost predicate Answers(cfg: seq<TunnelConfig>, format: Format, states: seq<State>, steps: seq<Step>, l: nat,
                          c: nat, verb: string, params: string, body: C.Body) {
    && l < |steps| < |states| && steps[l] == HandlerReplies
    && MT.Reachable(cfg, states[l].manager) && M.Shape(states[l].manager)
    && Handling(states[l].link) && states[l].link.up[states[l].link.taken - 1].call == c
    && Current(states[l].link).verb == verb && Current(states[l].link).params == params
    && body == Answer(states[l].manager.mem, Current(states[l].link), format)
    && states[l + 1].manager == Effect(states[l].manager, Current(states[l].link), format)
  }

  /** A stop or status call is answered at one step, between the step that made the call and its return. */
  lemma CallIsAnsweredAtOnce(cfg: seq<TunnelConfig>, format: Format, states: seq<State>, steps: seq<Step>, i: nat, k: nat,
                             c: nat, verb: string, params: string, w: C.Wire) returns (l: nat)
    requires Execution(cfg, format, states, steps) && IsManaged(verb) && Called(states, steps, i, k, c, verb, params, w)
    ensures i < l < k && Answers(cfg, format, states, steps, l, c, verb, params, w.body)
  {
    Safety(cfg, format, states, steps, k);
    StaysAsked(cfg, format, states, steps, i, k, c, verb, params);
    var j := R.OwnAnswer(states[k].link, c, w);
    l := WhenAnswered(cfg, format, states, steps, k, j);
    Safety(cfg, format, states, steps, l);
    UpExtends(cfg, format, states, steps, l, k);
    if l <= i {
      CallsGrow(cfg, format, states, steps, l, i);
      assert false;
    }
  }

  lemma {:induction false} ExtendsAll(states: seq<State>, l: nat, k: nat)
    requires l <= k < |states| && forall i | l <= i < k :: Extends(states[i].link, states[i + 1].link)
    ensures Extends(states[l].link, states[k].link)
    decreases k
  {
    if l < k {
      ExtendsAll(states, l, k - 1);
    }
  }

  lemma UpExtends(cfg: seq<TunnelConfig>, format: Format, states: seq<State>, steps: seq<Step>, l: nat, k: nat)
    requires Execution(cfg, format, states, steps) && l <= k < |states|
    ensures Extends(states[l].link, states[k].link)
  {
    forall i | l <= i < k
      ensures Extends(states[i].link, states[i + 1].link)
    {
      StepExtends(states[i], format, steps[i]);
    }
    ExtendsAll(states, l, k);
  }

  /**
   * A stop call that returns success has stopped its tunnel: between the call and its return there
   * was a step at which exactly one run of that name was unfinished, and that step left its
   * context cancelled.
   */
  lemma StopCallStops(cfg: seq<TunnelConfig>, format: Format, states: seq<State>, steps: seq<Step>, i: nat, k: nat,
                      c: nat, params: string, name: string, w: C.Wire) returns (l: nat, r: nat)
    requires Execution(cfg, format, states, steps) && Called(states, steps, i, k, c, "tunnel.stop", params, w)
    requires format.name(params) == Some(name) && name != "" && w.body.Result?
    ensures i < l < k && l < |steps| && steps[l] == HandlerReplies
    ensures var m := states[l].manager;
            && r < |m.runs| && M.Unfinished(m.runs[r]) && m.runs[r].name == name
            && forall q | 0 <= q < |m.runs| && M.Unfinished(m.runs[q]) && m.runs[q].name == name :: q == r
    ensures r < |states[l + 1].manager.mem.cancelled| && states[l + 1].manager.mem.cancelled[r]
  {
    l := CallIsAnsweredAtOnce(cfg, format, states, steps, i, k, c, STOP, params, w);
    r := RunToStop(cfg, states[l].manager, name);
    MT.StopCancelsThatRun(cfg, states[l].manager, name, r);
  }

  /** What `Stop` stops when it does not refuse. */
  lemma RunToStop(cfg: seq<TunnelConfig>, m: M.Machine, name: string) returns (r: nat)
    requires MT.Reachable(cfg, m) && M.Shape(m) && StopError(m.mem, name) == None
    ensures r < |m.runs| && M.Unfinished(m.runs[r]) && m.runs[r].name == name
    ensures forall q | 0 <= q < |m.runs| && M.Unfinished(m.runs[q]) && m.runs[q].name == name :: q == r
  {
    var o := m.mem.index[name];
    MT.ActiveMeansOneRun(cfg, m, o);
    r :| MT.RunsOn(m, r, o);
    MT.UnfinishedRunIsIndexed(cfg, m, r);
    MT.EntriesHaveDistinctNames(cfg, m, m.runs[r].name, name);
    forall q | 0 <= q < |m.runs| && M.Unfinished(m.runs[q]) && m.runs[q].name == name
      ensures q == r
    {
      MT.UnfinishedRunIsIndexed(cfg, m, q);
      assert MT.RunsOn(m, q, o);
    }
  }

  lemma RefusedStop(m: M.Machine, name: string)
    requires M.Shape(m) && StopError(m.mem, name) != None
    ensures M.Apply(m, M.StopCalled(name)) == m
  {
  }

  /** What a refusal says of the memory it was made in. */
  lemma RefusalMeans(m: Memory, request: C.Request, format: Format, name: string)
    requires Sound(m) && request.verb == STOP && format.name(request.params) == Some(name) && name != ""
    requires !Answer(m, request, format).Result?
    ensures StopError(m, name) != None
    ensures var body := Answer(m, request, format);
            && body.Fault? && (body.code == 1001 || body.code == 1003)
            && (!H.Misleading(name) ==> (body.code == 1001 <==> name !in m.index))
            && body.message == "tunnel " + E.Quote(name, format.printable) + if name !in m.index then " not found" else " is not running"
  {
    H.StopCodesExact(m, name, format.printable);
    E.RefusalTexts(m, name, format.printable);
  }

  /**
   * A stop call that is refused changed nothing; its message says truly whether the tunnel was
   * absent or idle at that step, and so does its code unless the name is misleading.
   */
  lemma StopCallRefused(cfg: seq<TunnelConfig>, format: Format, states: seq<State>, steps: seq<Step>, i: nat, k: nat,
                        c: nat, params: string, name: string, w: C.Wire) returns (l: nat)
    requires Execution(cfg, format, states, steps) && Called(states, steps, i, k, c, "tunnel.stop", params, w)
    requires format.name(params) == Some(name) && name != "" && !w.body.Result?
    ensures i < l < k && states[l + 1].manager == states[l].manager && Sound(states[l].manager.mem)
    ensures StopError(states[l].manager.mem, name) != None && w.body.Fault? && (w.body.code == 1001 || w.body.code == 1003)
    ensures !H.Misleading(name) ==> (w.body.code == 1001 <==> name !in states[l].manager.mem.index)
    ensures w.body.message == "tunnel " + E.Quote(name, format.printable)
                              + if name !in states[l].manager.mem.index then " not found" else " is not running"
  {
    l := CallIsAnsweredAtOnce(cfg, format, states, steps, i, k, c, STOP, params, w);
    RefusalMeans(states[l].manager.mem, Current(states[l].link), format, name);
    RefusedStop(states[l].manager, name);
  }

  /** A status call that succeeds returns a status and text the tunnel had at one step while the call was under way. */
  lemma StatusCallIsTrue(cfg: seq<TunnelConfig>, format: Format, states: seq<State>, steps: seq<Step>, i: nat, k: nat,
                         c: nat, params: string, name: string, w: C.Wire) returns (l: nat)
    requires Execution(cfg, format, states, steps) && Called(states, steps, i, k, c, "tunnel.status", params, w)
    requires format.name(params) == Some(name) && name != ""
    ensures i < l < k && states[l + 1].manager == states[l].manager && Sound(states[l].manager.mem)
    ensures name in states[l].manager.mem.index ==>
              var t := states[l].manager.mem.objs[states[l].manager.mem.index[name]]; w.body == C.Result(format.result(t.status, t.error))
    ensures name !in states[l].manager.mem.index ==> w.body == C.Fault(1001, "tunnel not found")
  {
    l := CallIsAnsweredAtOnce(cfg, format, states, steps, i, k, c, STATUS, params, w);
    H.StatusCodesExact(cfg, states[l].manager, name);
  }

  /** A stop or status call without a usable name is told so and changes nothing. */
  lemma NamelessCallIsRejected(cfg: seq<TunnelConfig>, format: Format, states: seq<State>, steps: seq<Step>, i: nat, k: nat,
                               c: nat, verb: string, params: string, w: C.Wire) returns (l: nat)
    requires Execution(cfg, format, states, steps) && IsManaged(verb) && Called(states, steps, i, k, c, verb, params, w)
    requires format.name(params) == None || format.name(params) == Some("")
    ensures i < l < k && states[l + 1].manager == states[l].manager
    ensures w.body == C.Fault(-32602, if format.name(params) == None then "invalid params" else "name is required")
  {
    l := CallIsAnsweredAtOnce(cfg, format, states, steps, i, k, c, verb, params, w);
  }
}
