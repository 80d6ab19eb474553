/**
 * The daemon's subscriber set (internal/daemon/daemon.go, internal/daemon/handlers.go) under its
 * read/write lock, with the per-connection mutex that serialises writes.  Connection handlers
 * subscribe, answer, leave the set and close; broadcasts walk the set and write to each member.
 */
module Subscribers {
  import opened Prelude

  /** Where a connection's handler goroutine is. */
  datatype Handler =
    | Serving        // reading or handling a request, no lock held
    | SubscribeWait  // d.mu.Lock in handleSubscribe
    | SubscribeHeld  // about to insert
    | Subscribed     // inserted, about to unlock
    | WriteWait      // sub.mu.Lock before the response
    | Writing        // holds sub.mu
    | LeaveWait      // d.mu.Lock after the loop
    | LeaveHeld      // about to delete
    | Deleted        // deleted, about to unlock
    | Unlisted       // about to close the connection
    | Closed

  /** Where a broadcast is; `todo` are the subscribers it has not written to yet. */
  datatype Walk =
    | Wanting                              // d.mu.RLock
    | Walking(todo: set<nat>)              // between subscribers
    | Blocked(at: nat, todo: set<nat>)     // sub.mu.Lock
    | Locked(at: nat, todo: set<nat>)      // holds sub.mu of `at`
    | Done

  /** `snapshot` is the subscriber set the broadcast found. */
  datatype Broadcast = Broadcast(walk: Walk, snapshot: set<nat>)

  datatype Holder = Own | By(b: nat)

  /** An Encode call on a connection: the handler's response or a broadcast's notification. */
  datatype Message = Reply | Note(b: nat)

  datatype Daemon = Daemon(conns: seq<Handler>, casts: seq<Broadcast>, subscribers: set<nat>,
                           writer: Option<nat>, readers: set<nat>,
                           held: seq<Option<Holder>>, streams: seq<seq<Message>>)

  datatype Step =
    | Accept
    | WantSubscribe(i: nat)
    | LockSubscribe(i: nat)
    | Insert(i: nat)
    | UnlockSubscribe(i: nat)
    | WantRespond(i: nat)
    | LockRespond(i: nat)
    | Respond(i: nat, ok: bool)
    | ReadFails(i: nat)
    | LockLeave(i: nat)
    | Delete(i: nat)
    | UnlockLeave(i: nat)
    | CloseConn(i: nat)
    | NewBroadcast
    | RLock(b: nat)
    | Pick(b: nat, i: nat)
    | LockNotify(b: nat)
    | Notify(b: nat)
    | RUnlock(b: nat)

  function Init(): Daemon {
    Daemon([], [], {}, None, {}, [], [])
  }

  predicate At(d: Daemon, i: nat, h: Handler) {
    i < |d.conns| && d.conns[i] == h
  }

  predicate WantsWrite(h: Handler) {
    h == SubscribeWait || h == LeaveWait
  }

  predicate HoldsWrite(h: Handler) {
    h in {SubscribeHeld, Subscribed, LeaveHeld, Deleted}
  }

  predicate Reads(w: Walk) {
    w.Walking? || w.Blocked? || w.Locked?
  }

  /** The lock is free of readers and writers. */
  predicate Free(d: Daemon) {
    d.writer == None && d.readers == {}
  }

  predicate Enabled(d: Daemon, step: Step) {
    match step
    case Accept => true
    case WantSubscribe(i) => At(d, i, Serving)
    case LockSubscribe(i) => At(d, i, SubscribeWait) && Free(d)
    case Insert(i) => At(d, i, SubscribeHeld)
    case UnlockSubscribe(i) => At(d, i, Subscribed)
    case WantRespond(i) => At(d, i, Serving)
    case LockRespond(i) => At(d, i, WriteWait) && i < |d.held| && d.held[i] == None
    case Respond(i, _) => At(d, i, Writing)
    case ReadFails(i) => At(d, i, Serving)
    case LockLeave(i) => At(d, i, LeaveWait) && Free(d)
    case Delete(i) => At(d, i, LeaveHeld)
    case UnlockLeave(i) => At(d, i, Deleted)
    case CloseConn(i) => At(d, i, Unlisted)
    case NewBroadcast => true
    case RLock(b) => b < |d.casts| && d.casts[b].walk == Wanting && d.writer == None
    case Pick(b, i) => b < |d.casts| && d.casts[b].walk.Walking? && i in d.casts[b].walk.todo
    case LockNotify(b) =>
      b < |d.casts| && d.casts[b].walk.Blocked? && d.casts[b].walk.at < |d.held| && d.held[d.casts[b].walk.at] == None
    case Notify(b) => b < |d.casts| && d.casts[b].walk.Locked?
    case RUnlock(b) => b < |d.casts| && d.casts[b].walk == Walking({})
  }

  /** Sizes agree and references are in range. */
  ghost predicate Shape(d: Daemon) {
    && |d.held| == |d.conns| && |d.streams| == |d.conns|
    && (forall i | i in d.subscribers :: i < |d.conns|)
    && (forall b | 0 <= b < |d.casts| && d.casts[b].walk.Locked? :: d.casts[b].walk.at < |d.conns|)
  }

  function Goto(d: Daemon, i: nat, h: Handler): Daemon
    requires i < |d.conns|
  {
    d.(conns := d.conns[i := h])
  }

  function GoWalk(d: Daemon, b: nat, w: Walk): Daemon
    requires b < |d.casts|
  {
    d.(casts := d.casts[b := d.casts[b].(walk := w)])
  }

  ghost function Apply(d: Daemon, step: Step): Daemon
    requires Shape(d) && Enabled(d, step)
  {
    match step
    case Accept => d.(conns := d.conns + [Serving], held := d.held + [None], streams := d.streams + [[]])
    case WantSubscribe(i) => Goto(d, i, SubscribeWait)
    case LockSubscribe(i) => Goto(d, i, SubscribeHeld).(writer := Some(i))
    case Insert(i) => Goto(d, i, Subscribed).(subscribers := d.subscribers + {i})
    case UnlockSubscribe(i) => Goto(d, i, WriteWait).(writer := None)
    case WantRespond(i) => Goto(d, i, WriteWait)
    case LockRespond(i) => Goto(d, i, Writing).(held := d.held[i := Some(Own)])
    case Respond(i, ok) =>
      Goto(d, i, if ok then Serving else LeaveWait)
        .(held := d.held[i := None], streams := d.streams[i := d.streams[i] + [Reply]])
    case ReadFails(i) => Goto(d, i, LeaveWait)
    case LockLeave(i) => Goto(d, i, LeaveHeld).(writer := Some(i))
    case Delete(i) => Goto(d, i, Deleted).(subscribers := d.subscribers - {i})
    case UnlockLeave(i) => Goto(d, i, Unlisted).(writer := None)
    case CloseConn(i) => Goto(d, i, Closed)
    case NewBroadcast => d.(casts := d.casts + [Broadcast(Wanting, {})])
    case RLock(b) =>
      d.(casts := d.casts[b := Broadcast(Walking(d.subscribers), d.subscribers)], readers := d.readers + {b})
    case Pick(b, i) => GoWalk(d, b, Blocked(i, d.casts[b].walk.todo))
    case LockNotify(b) =>
      var w := d.casts[b].walk;
      GoWalk(d, b, Locked(w.at, w.todo)).(held := d.held[w.at := Some(By(b))])
    case Notify(b) =>
      var w := d.casts[b].walk;
      GoWalk(d, b, Walking(w.todo - {w.at}))
        .(held := d.held[w.at := None], streams := d.streams[w.at := d.streams[w.at] + [Note(b)]])
    case RUnlock(b) => GoWalk(d, b, Done).(readers := d.readers - {b})
  }

  // -------------------------------------------------------------- invariants

  ghost predicate WriterOk(conns: seq<Handler>, writer: Option<nat>) {
    && (writer.Some? ==> writer.value < |conns| && HoldsWrite(conns[writer.value]))
    && (forall i | 0 <= i < |conns| && HoldsWrite(conns[i]) :: writer == Some(i))
  }

  ghost predicate ReadersOk(casts: seq<Broadcast>, readers: set<nat>) {
    && (forall b | b in readers :: b < |casts| && Reads(casts[b].walk))
    && (forall b | 0 <= b < |casts| && Reads(casts[b].walk) :: b in readers)
  }

  /** The handler has taken itself out of the subscriber set for good. */
  predicate HasLeft(h: Handler) {
    h in {Deleted, Unlisted, Closed}
  }

  ghost predicate MembersOk(conns: seq<Handler>, subscribers: set<nat>) {
    forall i | i in subscribers :: i < |conns| && !HasLeft(conns[i])
  }

  /** While a broadcast walks, the set is the one it found. */
  ghost predicate WalksOk(casts: seq<Broadcast>, subscribers: set<nat>) {
    forall b | 0 <= b < |casts| && Reads(casts[b].walk) ::
      && casts[b].snapshot == subscribers
      && casts[b].walk.todo <= subscribers
      && (!casts[b].walk.Walking? ==> casts[b].walk.at in casts[b].walk.todo)
  }

  ghost predicate HeldOk(conns: seq<Handler>, casts: seq<Broadcast>, held: seq<Option<Holder>>) {
    && |held| == |conns|
    && (forall i | 0 <= i < |conns| :: held[i] == Some(Own) <==> conns[i] == Writing)
    && (forall i | 0 <= i < |conns| && held[i].Some? && held[i].value.By? ::
          var b := held[i].value.b; b < |casts| && casts[b].walk.Locked? && casts[b].walk.at == i)
    && (forall b | 0 <= b < |casts| && casts[b].walk.Locked? ::
          casts[b].walk.at < |held| && held[casts[b].walk.at] == Some(By(b)))
  }

  function NoteFrom(b: nat): Message -> nat {
    (m: Message) => if m == Note(b) then 1 else 0
  }

  /** The broadcast has written to subscriber `i`. */
  predicate HasNotified(c: Broadcast, i: nat) {
    match c.walk
    case Wanting => false
    case Done => i in c.snapshot
    case _ => i in c.snapshot && i !in c.walk.todo
  }

  ghost predicate CountsOk(casts: seq<Broadcast>, streams: seq<seq<Message>>) {
    forall b, i | 0 <= b < |casts| && 0 <= i < |streams| ::
      Sum(streams[i], NoteFrom(b)) == if HasNotified(casts[b], i) then 1 else 0
  }

  /** Notifications on the streams come from broadcasts that exist. */
  ghost predicate NotesOk(casts: seq<Broadcast>, streams: seq<seq<Message>>) {
    forall i, b: nat | 0 <= i < |streams| && Note(b) in streams[i] :: b < |casts|
  }

  /** A broadcast only ever found connections that exist. */
  ghost predicate SnapshotsOk(casts: seq<Broadcast>, conns: seq<Handler>) {
    forall b, i | 0 <= b < |casts| && i in casts[b].snapshot :: i < |conns|
  }

  ghost predicate Inv(d: Daemon) {
    && |d.streams| == |d.conns|
    && SnapshotsOk(d.casts, d.conns)
    && WriterOk(d.conns, d.writer)
    && ReadersOk(d.casts, d.readers)
    && (d.writer.Some? ==> d.readers == {})
    && MembersOk(d.conns, d.subscribers)
    && WalksOk(d.casts, d.subscribers)
    && HeldOk(d.conns, d.casts, d.held)
    && CountsOk(d.casts, d.streams)
    && NotesOk(d.casts, d.streams)
  }

  lemma InvShape(d: Daemon)
    requires Inv(d)
    ensures Shape(d)
  {
  }

  lemma InitInv()
    ensures Inv(Init())
  {
  }

  // -------------------------------------------------------------- handlers

  lemma HeldKeptByMove(conns: seq<Handler>, casts: seq<Broadcast>, held: seq<Option<Holder>>, i: nat, h: Handler)
    requires HeldOk(conns, casts, held) && i < |conns| && conns[i] != Writing && h != Writing
    ensures HeldOk(conns[i := h], casts, held)
  {
  }

  /** A handler moves outside its writes, possibly taking or releasing the write lock. */
  lemma HandlerMoves(d: Daemon, i: nat, h: Handler, writer: Option<nat>, subscribers: set<nat>)
    requires Inv(d) && i < |d.conns| && d.conns[i] != Writing && h != Writing
    requires WriterOk(d.conns[i := h], writer) && (writer.Some? ==> d.readers == {})
    requires MembersOk(d.conns[i := h], subscribers) && (subscribers == d.subscribers || d.readers == {})
    ensures Inv(d.(conns := d.conns[i := h], writer := writer, subscribers := subscribers))
  {
    HeldKeptByMove(d.conns, d.casts, d.held, i, h);
  }

  lemma WriterUnmoved(conns: seq<Handler>, writer: Option<nat>, i: nat, h: Handler)
    requires WriterOk(conns, writer) && i < |conns| && HoldsWrite(h) == HoldsWrite(conns[i])
    ensures WriterOk(conns[i := h], writer)
  {
  }

  lemma WriterTaken(conns: seq<Handler>, i: nat, h: Handler)
    requires WriterOk(conns, None) && i < |conns| && HoldsWrite(h)
    ensures WriterOk(conns[i := h], Some(i))
  {
  }

  lemma WriterReleased(conns: seq<Handler>, writer: Option<nat>, i: nat, h: Handler)
    requires WriterOk(conns, writer) && i < |conns| && HoldsWrite(conns[i]) && !HoldsWrite(h)
    ensures WriterOk(conns[i := h], None)
  {
  }

  lemma MembersUnmoved(conns: seq<Handler>, subscribers: set<nat>, i: nat, h: Handler)
    requires MembersOk(conns, subscribers) && i < |conns| && HasLeft(h) == HasLeft(conns[i])
    ensures MembersOk(conns[i := h], subscribers)
  {
  }

  predicate IsHandlerMove(step: Step) {
    || step.WantSubscribe? || step.LockSubscribe? || step.Insert? || step.UnlockSubscribe? || step.WantRespond?
    || step.ReadFails? || step.LockLeave? || step.Delete? || step.UnlockLeave? || step.CloseConn?
  }

  lemma HandlerMoveKeepsInv(d: Daemon, step: Step)
    requires Inv(d) && Shape(d) && IsHandlerMove(step) && Enabled(d, step)
    ensures Inv(Apply(d, step))
  {
    var i := step.i;
    var h := Apply(d, step).conns[i];
    if step.LockSubscribe? || step.LockLeave? {
      WriterTaken(d.conns, i, h);
    } else if step.UnlockSubscribe? || step.UnlockLeave? {
      WriterReleased(d.conns, d.writer, i, h);
    } else {
      WriterUnmoved(d.conns, d.writer, i, h);
    }
    if !step.Delete? {
      MembersUnmoved(d.conns, d.subscribers, i, h);
    }
    HandlerMoves(d, i, h, Apply(d, step).writer, Apply(d, step).subscribers);
  }

  // -------------------------------------------------------------- writes

  lemma CountsAppend(casts: seq<Broadcast>, streams: seq<seq<Message>>, i: nat)
    requires CountsOk(casts, streams) && NotesOk(casts, streams) && i < |streams|
    ensures CountsOk(casts, streams[i := streams[i] + [Reply]]) && NotesOk(casts, streams[i := streams[i] + [Reply]])
  {
    forall b: nat
      ensures Sum(streams[i] + [Reply], NoteFrom(b)) == Sum(streams[i], NoteFrom(b))
    {
      SumAppend(streams[i], Reply, NoteFrom(b));
    }
  }

  lemma ResponseKeepsInv(d: Daemon, i: nat, ok: bool)
    requires Inv(d) && Shape(d) && Enabled(d, Respond(i, ok))
    ensures Inv(Apply(d, Respond(i, ok)))
  {
    var d' := Apply(d, Respond(i, ok));
    WriterUnmoved(d.conns, d.writer, i, d'.conns[i]);
    MembersUnmoved(d.conns, d.subscribers, i, d'.conns[i]);
    CountsAppend(d.casts, d.streams, i);
    assert HeldOk(d'.conns, d'.casts, d'.held);
  }

  lemma LockRespondKeepsInv(d: Daemon, i: nat)
    requires Inv(d) && Shape(d) && Enabled(d, LockRespond(i))
    ensures Inv(Apply(d, LockRespond(i)))
  {
    var d' := Apply(d, LockRespond(i));
    WriterUnmoved(d.conns, d.writer, i, d'.conns[i]);
    MembersUnmoved(d.conns, d.subscribers, i, d'.conns[i]);
    assert HeldOk(d'.conns, d'.casts, d'.held);
  }

  // -------------------------------------------------------------- broadcasts

  lemma {:induction false} NoNotes(stream: seq<Message>, b: nat)
    requires Note(b) !in stream
    ensures Sum(stream, NoteFrom(b)) == 0
  {
    if stream != [] {
      NoNotes(stream[..|stream| - 1], b);
    }
  }

  lemma AcceptKeepsInv(d: Daemon)
    requires Inv(d) && Shape(d)
    ensures Inv(Apply(d, Accept))
  {
  }

  lemma NewBroadcastKeepsInv(d: Daemon)
    requires Inv(d) && Shape(d)
    ensures Inv(Apply(d, NewBroadcast))
  {
    var d' := Apply(d, NewBroadcast);
    forall b, i | 0 <= b < |d'.casts| && 0 <= i < |d'.streams|
      ensures Sum(d'.streams[i], NoteFrom(b)) == if HasNotified(d'.casts[b], i) then 1 else 0
    {
      if b == |d.casts| {
        NoNotes(d.streams[i], b);
      } else {
        assert d'.casts[b] == d.casts[b];
      }
    }
  }

  /** A broadcast moves without writing. */
  lemma WalkKeepsCounts(casts: seq<Broadcast>, streams: seq<seq<Message>>, b: nat, c: Broadcast)
    requires CountsOk(casts, streams) && NotesOk(casts, streams) && b < |casts|
    requires forall i: nat :: HasNotified(c, i) <==> HasNotified(casts[b], i)
    ensures CountsOk(casts[b := c], streams) && NotesOk(casts[b := c], streams)
  {
  }

  lemma RLockKeepsInv(d: Daemon, b: nat)
    requires Inv(d) && Shape(d) && Enabled(d, RLock(b))
    ensures Inv(Apply(d, RLock(b)))
  {
    WalkKeepsCounts(d.casts, d.streams, b, Apply(d, RLock(b)).casts[b]);
  }

  lemma RUnlockKeepsInv(d: Daemon, b: nat)
    requires Inv(d) && Shape(d) && Enabled(d, RUnlock(b))
    ensures Inv(Apply(d, RUnlock(b)))
  {
    WalkKeepsCounts(d.casts, d.streams, b, Apply(d, RUnlock(b)).casts[b]);
  }

  lemma PickKeepsInv(d: Daemon, b: nat, i: nat)
    requires Inv(d) && Shape(d) && Enabled(d, Pick(b, i))
    ensures Inv(Apply(d, Pick(b, i)))
  {
    WalkKeepsCounts(d.casts, d.streams, b, Apply(d, Pick(b, i)).casts[b]);
  }

  lemma LockNotifyKeepsInv(d: Daemon, b: nat)
    requires Inv(d) && Shape(d) && Enabled(d, LockNotify(b))
    ensures Inv(Apply(d, LockNotify(b)))
  {
    var d' := Apply(d, LockNotify(b));
    WalkKeepsCounts(d.casts, d.streams, b, d'.casts[b]);
    assert HeldOk(d'.conns, d'.casts, d'.held);
  }

  lemma NotifyKeepsCounts(casts: seq<Broadcast>, streams: seq<seq<Message>>, b: nat, at: nat, c: Broadcast)
    requires CountsOk(casts, streams) && NotesOk(casts, streams) && b < |casts| && at < |streams|
    requires !HasNotified(casts[b], at)
    requires forall i: nat :: HasNotified(c, i) <==> (HasNotified(casts[b], i) || i == at)
    ensures CountsOk(casts[b := c], streams[at := streams[at] + [Note(b)]])
    ensures NotesOk(casts[b := c], streams[at := streams[at] + [Note(b)]])
  {
    forall a: nat
      ensures Sum(streams[at] + [Note(b)], NoteFrom(a)) == Sum(streams[at], NoteFrom(a)) + if a == b then 1 else 0
    {
      SumAppend(streams[at], Note(b), NoteFrom(a));
    }
  }

  lemma NotifyKeepsInv(d: Daemon, b: nat)
    requires Inv(d) && Shape(d) && Enabled(d, Notify(b))
    ensures Inv(Apply(d, Notify(b)))
  {
    var d' := Apply(d, Notify(b));
    NotifyKeepsCounts(d.casts, d.streams, b, d.casts[b].walk.at, d'.casts[b]);
    assert HeldOk(d'.conns, d'.casts, d'.held);
  }

  lemma StepKeepsInv(d: Daemon, step: Step)
    requires Inv(d) && Shape(d) && Enabled(d, step)
    ensures Inv(Apply(d, step))
  {
    match step
    case Accept => AcceptKeepsInv(d);
    case LockRespond(i) => LockRespondKeepsInv(d, i);
    case Respond(i, ok) => ResponseKeepsInv(d, i, ok);
    case NewBroadcast => NewBroadcastKeepsInv(d);
    case RLock(b) => RLockKeepsInv(d, b);
    case Pick(b, i) => PickKeepsInv(d, b, i);
    case LockNotify(b) => LockNotifyKeepsInv(d, b);
    case Notify(b) => NotifyKeepsInv(d, b);
    case RUnlock(b) => RUnlockKeepsInv(d, b);
    case _ => HandlerMoveKeepsInv(d, step);
  }

  // -------------------------------------------------------------- over every execution

  ghost predicate Execution(states: seq<Daemon>, steps: seq<Step>) {
    && |states| == |steps| + 1 && states[0] == Init()
    && forall k | 0 <= k < |steps| ::
         Shape(states[k]) && Enabled(states[k], steps[k]) && states[k + 1] == Apply(states[k], steps[k])
  }

  lemma {:induction false} Safety(states: seq<Daemon>, steps: seq<Step>, k: nat)
    requires Execution(states, steps) && k < |states|
    ensures Inv(states[k]) && Shape(states[k])
    decreases k
  {
    if k == 0 {
      InitInv();
    } else {
      Safety(states, steps, k - 1);
      StepKeepsInv(states[k - 1], steps[k - 1]);
    }
    InvShape(states[k]);
  }

  /** The Encode call of a step, if it makes one, and the connection it is made on. */
  function WritesTo(d: Daemon, step: Step): Option<nat> {
    match step
    case Respond(i, _) => Some(i)
    case Notify(b) => if b < |d.casts| && d.casts[b].walk.Locked? then Some(d.casts[b].walk.at) else None
    case _ => None
  }

  /** No write, by a handler or a broadcast, is made on a connection whose handler has left or closed it. */
  lemma NoWriteAfterClose(states: seq<Daemon>, steps: seq<Step>, k: nat)
    requires Execution(states, steps) && k < |steps| && WritesTo(states[k], steps[k]).Some?
    ensures var i := WritesTo(states[k], steps[k]).value; i < |states[k].conns| && !HasLeft(states[k].conns[i])
    ensures steps[k].Notify? ==> WritesTo(states[k], steps[k]).value in states[k].subscribers
  {
    Safety(states, steps, k);
  }

  /** Writes on one connection never overlap: whoever is about to write is the only one. */
  lemma OneWriterAtATime(states: seq<Daemon>, steps: seq<Step>, k: nat, i: nat, a: nat, b: nat)
    requires Execution(states, steps) && k < |states| && i < |states[k].conns|
    requires a < |states[k].casts| && states[k].casts[a].walk.Locked? && states[k].casts[a].walk.at == i
    ensures states[k].conns[i] != Writing
    ensures b < |states[k].casts| && states[k].casts[b].walk.Locked? && states[k].casts[b].walk.at == i ==> a == b
  {
    Safety(states, steps, k);
  }

  lemma LeavingIsFinal(d: Daemon, step: Step, i: nat)
    requires Shape(d) && Enabled(d, step) && i < |d.conns| && HasLeft(d.conns[i])
    ensures i < |Apply(d, step).conns| && HasLeft(Apply(d, step).conns[i])
  {
  }

  /** A handler that has left the subscriber set never reappears in it. */
  lemma {:induction false} LeftForGood(states: seq<Daemon>, steps: seq<Step>, j: nat, k: nat, i: nat)
    requires Execution(states, steps) && j <= k < |states|
    requires i < |states[j].conns| && HasLeft(states[j].conns[i])
    ensures i !in states[k].subscribers
    ensures i < |states[k].conns| && HasLeft(states[k].conns[i])
    decreases k
  {
    if j < k {
      LeftForGood(states, steps, j, k - 1, i);
      LeavingIsFinal(states[k - 1], steps[k - 1], i);
    }
    Safety(states, steps, k);
  }

  /** A finished broadcast has written exactly once to each subscriber it found and to nobody else. */
  lemma BroadcastReachesEachOnce(states: seq<Daemon>, steps: seq<Step>, k: nat, b: nat, i: nat)
    requires Execution(states, steps) && k < |states| && b < |states[k].casts| && i < |states[k].streams|
    requires states[k].casts[b].walk == Done
    ensures Sum(states[k].streams[i], NoteFrom(b)) == if i in states[k].casts[b].snapshot then 1 else 0
  {
    Safety(states, steps, k);
  }

  /** The connection is in the set or its handler has left it. */
  ghost predicate Listed(d: Daemon, i: nat) {
    i < |d.conns| && (i in d.subscribers || HasLeft(d.conns[i]))
  }

  /** Only its own handler takes a connection out of the set. */
  lemma ListedStays(d: Daemon, step: Step, i: nat)
    requires Shape(d) && Enabled(d, step) && (Listed(d, i) || step == Insert(i))
    ensures Listed(Apply(d, step), i)
  {
  }

  /** Once inserted, a connection is in the set until its handler leaves. */
  lemma {:induction false} SubscribedUntilItLeaves(states: seq<Daemon>, steps: seq<Step>, j: nat, k: nat, i: nat)
    requires Execution(states, steps) && j < k < |states| && steps[j] == Insert(i)
    ensures Listed(states[k], i)
    decreases k
  {
    if j + 1 < k {
      SubscribedUntilItLeaves(states, steps, j, k - 1, i);
    }
    ListedStays(states[k - 1], steps[k - 1], i);
  }

  lemma SnapshotStays(d: Daemon, step: Step, b: nat)
    requires Shape(d) && Enabled(d, step) && b < |d.casts| && d.casts[b].walk != Wanting
    ensures b < |Apply(d, step).casts| && Apply(d, step).casts[b].walk != Wanting
    ensures Apply(d, step).casts[b].snapshot == d.casts[b].snapshot
  {
  }

  /** A broadcast keeps the set it found when it took the read lock. */
  lemma {:induction false} SnapshotIsTheSetFound(states: seq<Daemon>, steps: seq<Step>, l: nat, k: nat, b: nat)
    requires Execution(states, steps) && l < k < |states| && steps[l] == RLock(b)
    ensures b < |states[k].casts| && states[k].casts[b].walk != Wanting
    ensures states[k].casts[b].snapshot == states[l].subscribers
    decreases k
  {
    if l + 1 < k {
      SnapshotIsTheSetFound(states, steps, l, k - 1, b);
      SnapshotStays(states[k - 1], steps[k - 1], b);
    }
  }

  /**
   * A connection that subscribed before a broadcast took the lock, and had not left by then, has
   * been written that broadcast exactly once when the broadcast is done.
   */
  lemma SubscriberIsNotified(states: seq<Daemon>, steps: seq<Step>, j: nat, l: nat, k: nat, i: nat, b: nat)
    requires Execution(states, steps) && j < l < k < |states|
    requires steps[j] == Insert(i) && steps[l] == RLock(b)
    requires i < |states[l].conns| && !HasLeft(states[l].conns[i])
    requires b < |states[k].casts| && states[k].casts[b].walk == Done
    ensures i < |states[k].streams| && Sum(states[k].streams[i], NoteFrom(b)) == 1
  {
    SubscribedUntilItLeaves(states, steps, j, l, i);
    SnapshotIsTheSetFound(states, steps, l, k, b);
    Safety(states, steps, k);
    BroadcastReachesEachOnce(states, steps, k, b, i);
  }

  // -------------------------------------------------------------- handlers that leave, and what they answered

  /** The step ends the request loop of handler `i`: a failed read or a failed Encode call. */
  predicate EndsLoop(step: Step, i: nat) {
    step == ReadFails(i) || step == Respond(i, false)
  }

  /** The handler is past its request loop. */
  predicate OnItsWayOut(h: Handler) {
    h in {LeaveWait, LeaveHeld, Deleted, Unlisted, Closed}
  }

  lemma WayOutIsOneWay(d: Daemon, step: Step, i: nat)
    requires Shape(d) && Enabled(d, step) && i < |d.conns|
    ensures i < |Apply(d, step).conns|
    ensures OnItsWayOut(Apply(d, step).conns[i]) <==> OnItsWayOut(d.conns[i]) || EndsLoop(step, i)
  {
  }

  ghost predicate IsOut(d: Daemon, i: nat) {
    i < |d.conns| && OnItsWayOut(d.conns[i])
  }

  lemma {:induction false} OutFromThenOn(states: seq<Daemon>, i: nat, j: nat, k: nat)
    requires j <= k < |states| && IsOut(states[j], i)
    requires forall l | j <= l < k :: IsOut(states[l], i) ==> IsOut(states[l + 1], i)
    ensures IsOut(states[k], i)
    decreases k
  {
    if j < k {
      OutFromThenOn(states, i, j, k - 1);
    }
  }

  lemma StaysOut(states: seq<Daemon>, steps: seq<Step>, j: nat, k: nat, i: nat)
    requires Execution(states, steps) && j < k < |states| && EndsLoop(steps[j], i)
    ensures IsOut(states[k], i)
  {
    WayOutIsOneWay(states[j], steps[j], i);
    forall l | j < l < k && IsOut(states[l], i)
      ensures IsOut(states[l + 1], i)
    {
      WayOutIsOneWay(states[l], steps[l], i);
    }
    OutFromThenOn(states, i, j + 1, k);
  }

  /**
   * A handler whose read or Encode call fails reads and answers no more, and once nothing is left
   * to do it has taken itself out of the set and closed its connection.
   */
  lemma FailedHandlerLeaves(states: seq<Daemon>, steps: seq<Step>, j: nat, k: nat, i: nat)
    requires Execution(states, steps) && j < k < |states| && EndsLoop(steps[j], i)
    ensures i < |states[k].conns| && OnItsWayOut(states[k].conns[i])
    ensures !Busy(states[k]) ==> states[k].conns[i] == Closed && i !in states[k].subscribers
  {
    StaysOut(states, steps, j, k, i);
    Safety(states, steps, k);
  }

  /** The handler has a request it has not made its Encode call for yet. */
  predicate OwesReply(h: Handler) {
    h in {SubscribeWait, SubscribeHeld, Subscribed, WriteWait, Writing}
  }

  function IsReply(m: Message): nat {
    if m == Reply then 1 else 0
  }

  /** How many requests handler `i` has begun to work on in the first `k` steps. */
  function RequestsTaken(steps: seq<Step>, k: nat, i: nat): nat
    requires k <= |steps|
  {
    if k == 0 then 0
    else RequestsTaken(steps, k - 1, i) + if steps[k - 1] == WantSubscribe(i) || steps[k - 1] == WantRespond(i) then 1 else 0
  }

  lemma RepliesStep(d: Daemon, step: Step, i: nat)
    requires Shape(d) && Enabled(d, step) && i < |d.conns| && i < |d.streams|
    ensures i < |Apply(d, step).conns| && i < |Apply(d, step).streams|
    ensures Sum(Apply(d, step).streams[i], IsReply) + (if OwesReply(Apply(d, step).conns[i]) then 1 else 0)
            == Sum(d.streams[i], IsReply) + (if OwesReply(d.conns[i]) then 1 else 0)
               + (if step == WantSubscribe(i) || step == WantRespond(i) then 1 else 0)
  {
    if step.Respond? || step.Notify? {
      StreamsStep(d, step, i);
    }
  }

  lemma StreamsStep(d: Daemon, step: Step, i: nat)
    requires Shape(d) && Enabled(d, step) && i < |d.streams| && (step.Respond? || step.Notify?)
    ensures i < |Apply(d, step).streams|
    ensures Sum(Apply(d, step).streams[i], IsReply) == Sum(d.streams[i], IsReply) + if step.Respond? && step.i == i then 1 else 0
  {
    match step
    case Respond(c, _) => SumAppend(d.streams[c], Reply, IsReply);
    case Notify(b) => SumAppend(d.streams[d.casts[b].walk.at], Note(b), IsReply);
  }

  lemma QuietStep(states: seq<Daemon>, steps: seq<Step>, l: nat, i: nat)
    requires Execution(states, steps) && l < |steps| && i >= |states[l + 1].conns|
    ensures i >= |states[l].conns| && steps[l] != WantSubscribe(i) && steps[l] != WantRespond(i)
  {
    ConnectionsStay(states[l], steps[l]);
  }

  lemma {:induction false} NewConnectionIsQuiet(states: seq<Daemon>, steps: seq<Step>, k: nat, i: nat)
    requires Execution(states, steps) && k < |states| && i >= |states[k].conns|
    ensures RequestsTaken(steps, k, i) == 0
    decreases k
  {
    if k > 0 {
      QuietStep(states, steps, k - 1, i);
      NewConnectionIsQuiet(states, steps, k - 1, i);
    }
  }

  lemma ConnectionsStay(d: Daemon, step: Step)
    requires Shape(d) && Enabled(d, step)
    ensures |d.conns| <= |Apply(d, step).conns| <= |d.conns| + 1
    ensures |Apply(d, step).conns| > |d.conns| ==>
              && step == Accept && Apply(d, step).conns == d.conns + [Serving] && Apply(d, step).streams == d.streams + [[]]
  {
  }

  /**
   * Every request a handler takes, subscriptions included, is answered by one Encode call before
   * the next is taken: calls made are requests taken, less the one under way.
   */
  lemma {:induction false} OneReplyPerRequest(states: seq<Daemon>, steps: seq<Step>, k: nat, i: nat)
    requires Execution(states, steps) && k < |states| && i < |states[k].conns|
    ensures i < |states[k].streams|
    ensures RequestsTaken(steps, k, i) == Sum(states[k].streams[i], IsReply) + if OwesReply(states[k].conns[i]) then 1 else 0
    decreases k
  {
    Safety(states, steps, k);
    if k > 0 {
      Safety(states, steps, k - 1);
      ConnectionsStay(states[k - 1], steps[k - 1]);
      if i < |states[k - 1].conns| {
        OneReplyPerRequest(states, steps, k - 1, i);
        RepliesStep(states[k - 1], steps[k - 1], i);
      } else {
        NewConnectionIsQuiet(states, steps, k - 1, i);
      }
    }
  }

  // -------------------------------------------------------------- no deadlock between the locks

  /** Some handler is inside or waiting for a lock, or some broadcast is not finished. */
  ghost predicate Busy(d: Daemon) {
    || (exists i | 0 <= i < |d.conns| :: d.conns[i] != Serving && d.conns[i] != Closed)
    || (exists b | 0 <= b < |d.casts| :: d.casts[b].walk != Done)
  }

  ghost predicate WriterWaits(d: Daemon) {
    exists i | 0 <= i < |d.conns| :: WantsWrite(d.conns[i])
  }

  /**
   * Steps that wait for no request and no new work, provided every Encode call returns (`Respond`
   * and `Notify` write to a socket); a waiting writer keeps new readers out.
   */
  ghost predicate Internal(d: Daemon, step: Step) {
    match step
    case Accept => false
    case NewBroadcast => false
    case WantSubscribe(_) => false
    case WantRespond(_) => false
    case ReadFails(_) => false
    case RLock(_) => !WriterWaits(d)
    case _ => true
  }

  /** Whoever holds a connection's mutex can write and release it. */
  lemma MutexHolderMoves(d: Daemon, i: nat) returns (step: Step)
    requires Inv(d) && i < |d.conns| && d.held[i].Some?
    ensures Enabled(d, step) && Internal(d, step)
  {
    match d.held[i].value
    case Own => step := Respond(i, true);
    case By(b) => step := Notify(b);
  }

  lemma ReaderMoves(d: Daemon, b: nat) returns (step: Step)
    requires Inv(d) && b in d.readers
    ensures Enabled(d, step) && Internal(d, step)
  {
    match d.casts[b].walk
    case Walking(todo) =>
      if todo == {} {
        step := RUnlock(b);
      } else {
        var i :| i in todo;
        step := Pick(b, i);
      }
    case Blocked(i, _) =>
      if d.held[i] == None {
        step := LockNotify(b);
      } else {
        step := MutexHolderMoves(d, i);
      }
    case Locked(_, _) => step := Notify(b);
  }

  lemma WriterMoves(d: Daemon) returns (step: Step)
    requires Inv(d) && d.writer.Some?
    ensures Enabled(d, step) && Internal(d, step)
  {
    var i := d.writer.value;
    match d.conns[i]
    case SubscribeHeld => step := Insert(i);
    case Subscribed => step := UnlockSubscribe(i);
    case LeaveHeld => step := Delete(i);
    case Deleted => step := UnlockLeave(i);
  }

  lemma WaitingHandlerMoves(d: Daemon, i: nat) returns (step: Step)
    requires Inv(d) && Free(d) && i < |d.conns| && d.conns[i] != Serving && d.conns[i] != Closed
    ensures Enabled(d, step) && Internal(d, step)
  {
    match d.conns[i]
    case SubscribeWait => step := LockSubscribe(i);
    case LeaveWait => step := LockLeave(i);
    case Writing => step := Respond(i, true);
    case Unlisted => step := CloseConn(i);
    case WriteWait =>
      if d.held[i] == None {
        step := LockRespond(i);
      } else {
        step := MutexHolderMoves(d, i);
      }
  }

  lemma SomebodyMoves(d: Daemon) returns (step: Step)
    requires Inv(d) && Busy(d)
    ensures Enabled(d, step) && Internal(d, step)
  {
    if d.writer.Some? {
      step := WriterMoves(d);
    } else if d.readers != {} {
      var b :| b in d.readers;
      step := ReaderMoves(d, b);
    } else if exists i | 0 <= i < |d.conns| :: d.conns[i] != Serving && d.conns[i] != Closed {
      var i :| 0 <= i < |d.conns| && d.conns[i] != Serving && d.conns[i] != Closed;
      step := WaitingHandlerMoves(d, i);
    } else {
      var b :| 0 <= b < |d.casts| && d.casts[b].walk != Done;
      step := RLock(b);
    }
  }

  /**
   * The read/write lock and the connection mutexes never deadlock among themselves, even with
   * writer preference: somebody can always move, if need be by completing an Encode call.
   */
  lemma NoDeadlock(states: seq<Daemon>, steps: seq<Step>, k: nat) returns (step: Step)
    requires Execution(states, steps) && k < |states| && Busy(states[k])
    ensures Enabled(states[k], step) && Internal(states[k], step)
  {
    Safety(states, steps, k);
    step := SomebodyMoves(states[k]);
  }

  // -------------------------------------------------------------- an Encode call that does not return

  /** Broadcast `b` is at connection `i`, whose mutex somebody holds. */
  ghost predicate StuckAt(d: Daemon, b: nat, i: nat) {
    && b < |d.casts| && (d.casts[b].walk.Blocked? || d.casts[b].walk.Locked?) && d.casts[b].walk.at == i
    && i < |d.held| && d.held[i].Some?
  }

  /** As long as no Encode call on `i` returns, the broadcast stays there. */
  lemma StuckStays(d: Daemon, step: Step, b: nat, i: nat)
    requires Shape(d) && Enabled(d, step) && StuckAt(d, b, i) && WritesTo(d, step) != Some(i)
    ensures StuckAt(Apply(d, step), b, i)
  {
  }

  /** While a broadcast reads, nobody gets the write lock. */
  lemma ReaderKeepsWritersOut(d: Daemon, step: Step, w: nat)
    requires Shape(d) && Enabled(d, step) && WriterOk(d.conns, d.writer) && d.writer == None && d.readers != {}
    ensures Apply(d, step).subscribers == d.subscribers
    ensures w < |d.conns| && WantsWrite(d.conns[w]) ==> Apply(d, step).conns[w] == d.conns[w]
  {
  }

  /** A broadcast that wants the read lock, or has not begun. */
  ghost predicate Outside(d: Daemon, b: nat) {
    b < |d.casts| ==> d.casts[b].walk == Wanting
  }

  lemma OutsideStays(d: Daemon, step: Step, b: nat)
    requires Shape(d) && Enabled(d, step) && !step.RLock? && Outside(d, b)
    ensures Outside(Apply(d, step), b)
  {
  }

  /** No Encode call on `i` returns between `j` and `k`. */
  ghost predicate NoEncodeReturns(states: seq<Daemon>, steps: seq<Step>, j: nat, k: nat, i: nat) {
    k <= |steps| < |states| && forall l | j <= l < k :: WritesTo(states[l], steps[l]) != Some(i)
  }

  /** Nobody takes the read lock past a waiting writer, as in Go's RWMutex. */
  ghost predicate WritersFirst(states: seq<Daemon>, steps: seq<Step>) {
    |steps| < |states| && forall l | 0 <= l < |steps| && steps[l].RLock? :: !WriterWaits(states[l])
  }

  lemma {:induction false} StuckForGood(states: seq<Daemon>, steps: seq<Step>, j: nat, k: nat, b: nat, i: nat)
    requires Execution(states, steps) && j <= k < |states| && StuckAt(states[j], b, i) && NoEncodeReturns(states, steps, j, k, i)
    ensures StuckAt(states[k], b, i)
    decreases k
  {
    if j < k {
      StuckForGood(states, steps, j, k - 1, b, i);
      StuckStays(states[k - 1], steps[k - 1], b, i);
    }
  }

  lemma StuckReads(states: seq<Daemon>, steps: seq<Step>, k: nat, b: nat, i: nat)
    requires Execution(states, steps) && k < |states| && StuckAt(states[k], b, i)
    ensures states[k].writer == None && states[k].readers != {} && WriterOk(states[k].conns, states[k].writer)
  {
    Safety(states, steps, k);
    assert b in states[k].readers;
  }

  lemma FrozenStep(states: seq<Daemon>, steps: seq<Step>, l: nat, b: nat, i: nat, w: nat)
    requires Execution(states, steps) && l < |steps| && StuckAt(states[l], b, i)
    ensures states[l + 1].subscribers == states[l].subscribers
    ensures w < |states[l].conns| && WantsWrite(states[l].conns[w]) ==> At(states[l + 1], w, states[l].conns[w])
  {
    StuckReads(states, steps, l, b, i);
    ReaderKeepsWritersOut(states[l], steps[l], w);
    ConnectionsStay(states[l], steps[l]);
  }

  /**
   * What one client that stops reading costs: while no Encode call on its connection returns, a
   * broadcast that has reached it stays there, the subscriber set is frozen, and every handler
   * that wants to subscribe or to leave keeps waiting.
   */
  lemma {:induction false} StuckEncodeFreezes(states: seq<Daemon>, steps: seq<Step>, j: nat, k: nat, b: nat, i: nat, w: nat)
    requires Execution(states, steps) && j <= k < |states| && StuckAt(states[j], b, i) && NoEncodeReturns(states, steps, j, k, i)
    ensures StuckAt(states[k], b, i) && states[k].subscribers == states[j].subscribers
    ensures w < |states[j].conns| && WantsWrite(states[j].conns[w]) ==> At(states[k], w, states[j].conns[w])
    decreases k
  {
    StuckForGood(states, steps, j, k, b, i);
    if j < k {
      StuckEncodeFreezes(states, steps, j, k - 1, b, i, w);
      FrozenStep(states, steps, k - 1, b, i, w);
    }
  }

  /**
   * And once a writer waits behind it, no further broadcast gets in: every broadcast that had not
   * taken the read lock by then, begun already or later, is still waiting for it.
   */
  lemma {:induction false} StuckEncodeBlocksBroadcasts(states: seq<Daemon>, steps: seq<Step>, j: nat, k: nat,
                                                       b: nat, i: nat, w: nat, a: nat)
    requires Execution(states, steps) && WritersFirst(states, steps) && j <= k < |states|
    requires StuckAt(states[j], b, i) && NoEncodeReturns(states, steps, j, k, i)
    requires w < |states[j].conns| && WantsWrite(states[j].conns[w]) && Outside(states[j], a)
    ensures Outside(states[k], a)
    decreases k
  {
    if j < k {
      StuckEncodeBlocksBroadcasts(states, steps, j, k - 1, b, i, w, a);
      StuckEncodeFreezes(states, steps, j, k - 1, b, i, w);
      assert WriterWaits(states[k - 1]);
      OutsideStays(states[k - 1], steps[k - 1], a);
    }
  }

  // -------------------------------------------------------------- such a state is reached

  lemma Extend(states: seq<Daemon>, steps: seq<Step>, step: Step) returns (states': seq<Daemon>, steps': seq<Step>)
    requires Execution(states, steps) && WritersFirst(states, steps) && Enabled(states[|steps|], step)
    requires step.RLock? ==> !WriterWaits(states[|steps|])
    ensures Execution(states', steps') && WritersFirst(states', steps') && |steps'| == |steps| + 1
    ensures Shape(states[|steps|]) && states'[|steps'|] == Apply(states[|steps|], step)
  {
    Safety(states, steps, |steps|);
    steps' := steps + [step];
    states' := states + [Apply(states[|steps|], step)];
    forall k | 0 <= k < |steps'|
      ensures Shape(states'[k]) && Enabled(states'[k], steps'[k]) && states'[k + 1] == Apply(states'[k], steps'[k])
    {
      assert states'[k] == states[k];
      assert k < |steps| ==> steps'[k] == steps[k] && states'[k + 1] == states[k + 1];
    }
  }

  lemma TwoConnected() returns (states: seq<Daemon>, steps: seq<Step>)
    ensures Execution(states, steps) && WritersFirst(states, steps)
    ensures states[|steps|] == Daemon([Serving, Serving], [], {}, None, {}, [None, None], [[], []])
  {
    states, steps := [Init()], [];
    states, steps := Extend(states, steps, Accept);
    states, steps := Extend(states, steps, Accept);
  }

  /** The first of two connections has subscribed. */
  lemma OneSubscribed() returns (states: seq<Daemon>, steps: seq<Step>)
    ensures Execution(states, steps) && WritersFirst(states, steps)
    ensures states[|steps|] == Daemon([WriteWait, Serving], [], {0}, None, {}, [None, None], [[], []])
  {
    states, steps := TwoConnected();
    states, steps := Extend(states, steps, WantSubscribe(0));
    states, steps := Extend(states, steps, LockSubscribe(0));
    states, steps := Extend(states, steps, Insert(0));
    states, steps := Extend(states, steps, UnlockSubscribe(0));
  }

  /** Broadcasts do not wait for each other: two can walk the set at the same time. */
  lemma BroadcastsOverlap() returns (states: seq<Daemon>, steps: seq<Step>)
    ensures Execution(states, steps) && WritersFirst(states, steps)
    ensures |states[|steps|].casts| == 2 && Reads(states[|steps|].casts[0].walk) && Reads(states[|steps|].casts[1].walk)
  {
    states, steps := OneSubscribed();
    states, steps := Extend(states, steps, NewBroadcast);
    states, steps := Extend(states, steps, NewBroadcast);
    states, steps := Extend(states, steps, RLock(0));
    states, steps := Extend(states, steps, RLock(1));
  }

  /**
   * The cost is real: an execution, with Go's order at the lock, ends with a broadcast inside its
   * Encode call on connection 0 and another client waiting to subscribe behind it.
   */
  lemma StuckIsReachable() returns (states: seq<Daemon>, steps: seq<Step>)
    ensures Execution(states, steps) && WritersFirst(states, steps)
    ensures StuckAt(states[|steps|], 0, 0)
    ensures |states[|steps|].conns| == 2 && WantsWrite(states[|steps|].conns[1]) && Outside(states[|steps|], 1)
  {
    states, steps := OneSubscribed();
    states, steps := Extend(states, steps, NewBroadcast);
    states, steps := Extend(states, steps, RLock(0));
    states, steps := Extend(states, steps, Pick(0, 0));
    states, steps := Extend(states, steps, LockNotify(0));
    states, steps := Extend(states, steps, WantSubscribe(1));
  }
}
