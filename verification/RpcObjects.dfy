/**
 * The two ends of a connection as mutable objects: the client with its pending map and queue
 * (internal/daemon/client.go), and the daemon with its subscriber set, connection loop and
 * broadcast loop (internal/daemon/daemon.go, internal/daemon/handlers.go).
 */
module RpcObjects {
  import opened Prelude
  import opened Text
  import opened RpcClient

  // -------------------------------------------------------------- the client

  /** The read loop alone: what the client becomes after `ws` arrive. */
  ghost function DeliverAll(s: Client, ws: seq<Wire>): (t: Client)
    requires Inv(s) && !s.closed
    ensures Inv(t) && !t.closed
  {
    if ws == [] then s
    else
      var before := DeliverAll(s, ws[..|ws| - 1]);
      var w := ws[|ws| - 1];
      ReadLoopNeverBlocks(before, w);
      StepKeepsInv(before, Receive(w));
      Deliver(before, w)
  }

  function FirstHundred(ws: seq<Wire>): (first: seq<Wire>)
    ensures first <= ws && (|first| == |ws| || |first| == 100 < |ws|)
  {
    if |ws| <= QUEUE_CAPACITY then ws else ws[..QUEUE_CAPACITY]
  }

  /** With nobody consuming, the queue keeps the first hundred notifications and drops the rest. */
  lemma {:induction false} QueueKeepsFirst(s: Client, ws: seq<Wire>)
    requires Inv(s) && !s.closed
    ensures DeliverAll(s, ws).queue == FirstHundred(s.queue + Notifications(ws))
    ensures DeliverAll(s, ws).consumed == s.consumed
  {
    if ws == [] {
      assert s.queue + Notifications(ws) == s.queue;
    } else {
      var n := |ws| - 1;
      QueueKeepsFirst(s, ws[..n]);
      var all := s.queue + Notifications(ws[..n]);
      if IsNotification(ws[n]) {
        assert s.queue + Notifications(ws) == all + [ws[n]];
        assert |all| > QUEUE_CAPACITY ==> (all + [ws[n]])[..QUEUE_CAPACITY] == all[..QUEUE_CAPACITY];
        assert |all| == QUEUE_CAPACITY ==> (all + [ws[n]])[..QUEUE_CAPACITY] == all;
      }
    }
  }

  class ClientObject {
    var nextID: nat
    var calls: seq<Call>
    var responses: map<string, nat>
    var notifications: seq<Wire>
    var closed: bool
    ghost var consumed: seq<Wire>

    ghost function View(): Client
      reads this
    {
      Client(nextID, calls, responses, notifications, consumed, closed)
    }

    ghost predicate Valid()
      reads this
    {
      Inv(View())
    }

    /** `Connect`. */
    constructor ()
      ensures Valid() && View() == Connect()
    {
      nextID, calls, responses, notifications, closed, consumed := 0, [], map[], [], false, [];
    }

    /** `call`: take the next ID from the 64-bit counter. */
    method StartCall(verb: string, params: string) returns (c: nat)
      requires Valid()
      modifies this
      ensures Valid() && View() == Apply(old(View()), NewCall(verb, params))
      ensures c == |calls| - 1 && calls[c].id == Decimal((old(nextID) + 1) % 0x1_0000_0000_0000_0000)
      ensures calls[c].verb == verb && calls[c].params == params && calls[..c] == old(calls)
    {
      StepKeepsInv(View(), NewCall(verb, params));
      nextID := (nextID + 1) % ID_SPACE;
      c := |calls|;
      calls := calls + [Call(Decimal(nextID), verb, params, Numbered, None)];
    }

    /** `call`: put the channel into the pending map. */
    method AddPending(c: nat)
      requires Valid() && RpcClient.Enabled(View(), Register(c))
      modifies this
      ensures Valid() && View() == Apply(old(View()), Register(c))
    {
      StepKeepsInv(View(), Register(c));
      responses := responses[calls[c].id := c];
      calls := calls[c := calls[c].(progress := Registered)];
    }

    /** `call`: take the channel out again after a failed send. */
    method DropPending(c: nat)
      requires Valid() && RpcClient.Enabled(View(), Unregister(c))
      modifies this
      ensures Valid() && View() == Apply(old(View()), Unregister(c))
    {
      StepKeepsInv(View(), Unregister(c));
      responses := responses - {calls[c].id};
      calls := calls[c := calls[c].(progress := Returned(SendFailed))];
    }

    /** `call`: receive the answer from the channel, emptying its slot. */
    method AwaitReply(c: nat) returns (w: Wire)
      requires Valid() && RpcClient.Enabled(View(), TakeReply(c))
      modifies this
      ensures Valid() && View() == Apply(old(View()), TakeReply(c)) && Some(w) == old(calls)[c].slot
    {
      StepKeepsInv(View(), TakeReply(c));
      w := calls[c].slot.value;
      calls := calls[c := calls[c].(progress := Returned(Answered(w)), slot := None)];
    }

    /** One message of the read loop. */
    method DeliverOne(w: Wire)
      requires Valid() && !closed
      modifies this
      ensures Valid() && RpcClient.Enabled(old(View()), Receive(w)) && View() == Deliver(old(View()), w)
    {
      ReadLoopNeverBlocks(View(), w);
      StepKeepsInv(View(), Receive(w));
      if w.id != "" {
        if w.id in responses {
          var c := responses[w.id];
          calls := calls[c := calls[c].(slot := Some(w))];
          responses := responses - {w.id};
        }
      } else if w.verb != "" {
        if |notifications| < QUEUE_CAPACITY {
          notifications := notifications + [w];
        }
      }
    }

    /** `readLoop`, up to the failure that ends it. */
    method ReadLoop(incoming: seq<Wire>)
      requires Valid() && !closed
      modifies this
      ensures Valid() && closed && View() == DeliverAll(old(View()), incoming).(closed := true)
      ensures notifications == FirstHundred(old(notifications) + Notifications(incoming))
    {
      ghost var s := View();
      for k := 0 to |incoming|
        invariant Valid() && !closed && View() == DeliverAll(s, incoming[..k])
      {
        DeliverOne(incoming[k]);
        assert incoming[..k + 1][..k] == incoming[..k];
      }
      assert incoming[..|incoming|] == incoming;
      QueueKeepsFirst(s, incoming);
      closed := true;
    }

    /** Receive from the notifications channel. */
    method NextNotification() returns (w: Option<Wire>)
      requires Valid()
      modifies this
      ensures Valid()
      ensures old(notifications) == [] ==> w == None && View() == old(View())
      ensures old(notifications) != [] ==> w == Some(old(notifications[0])) && View() == Apply(old(View()), Consume)
    {
      if notifications == [] {
        return None;
      }
      StepKeepsInv(View(), Consume);
      w := Some(notifications[0]);
      consumed := consumed + [notifications[0]];
      notifications := notifications[1..];
    }
  }

  // -------------------------------------------------------------- the daemon

  const SUBSCRIBE := "subscribe"

  class Connection {
    var sent: seq<Wire>
    var open: bool

    constructor ()
      ensures sent == [] && open
    {
      sent, open := [], true;
    }
  }

  /** One response per request, each carrying its request's ID. */
  function Answers(requests: seq<Request>, bodies: seq<Body>): (ws: seq<Wire>)
    requires |bodies| == |requests|
    ensures |ws| == |requests|
    ensures forall j | 0 <= j < |ws| :: ws[j].id == requests[j].id && ws[j].verb == "" && ws[j].body == bodies[j]
  {
    seq(|requests|, j requires 0 <= j < |requests| => Wire(requests[j].id, "", bodies[j]))
  }

  class DaemonObject {
    var subscribers: set<Connection>

    /** Every subscribed connection is open. */
    ghost predicate Valid()
      reads this, subscribers
    {
      forall c | c in subscribers :: c.open
    }

    constructor ()
      ensures Valid() && subscribers == {}
    {
      subscribers := {};
    }

    /**
     * `broadcastStatusChange`: one notification to every subscriber and nothing to anyone else; an
     * Encode call that fails (on a connection in `failing`) is skipped and keeps nobody else from it.
     */
    method BroadcastStatusChange(verb: string, params: string, failing: set<Connection>)
      requires Valid()
      modifies subscribers
      ensures Valid()
      ensures forall c | c in subscribers ::
                c.sent == if c in failing then old(c.sent) else old(c.sent) + [NewNotification(verb, params)]
    {
      var notification := NewNotification(verb, params);
      var left := subscribers;
      while left != {}
        invariant left <= subscribers && Valid()
        invariant forall c | c in subscribers ::
                    c.sent == if c in left || c in failing then old(c.sent) else old(c.sent) + [notification]
        decreases left
      {
        var c :| c in left;
        if c !in failing {
          c.sent := c.sent + [notification];
        }
        left := left - {c};
      }
    }

    /** `handleSubscribe`. */
    method HandleSubscribe(conn: Connection)
      requires Valid() && conn.open
      modifies this
      ensures Valid() && subscribers == old(subscribers) + {conn}
    {
      subscribers := subscribers + {conn};
    }

    /**
     * The request loop of `handleConnection`: answer each request in order until an Encode call
     * fails, subscribing on the way.  `bodies` is what the handlers answer; the Encode call for
     * request `failing`, if there is one, fails.
     */
    method ServeRequests(conn: Connection, requests: seq<Request>, bodies: seq<Body>, failing: nat)
      requires Valid() && conn.open && conn !in subscribers && |bodies| == |requests|
      modifies this, conn`sent
      ensures Valid() && subscribers - {conn} == old(subscribers)
      ensures conn in subscribers <==> exists j | 0 <= j < |requests| && j <= failing :: requests[j].verb == "subscribe"
      ensures |old(conn.sent)| <= |conn.sent| && conn.sent[..|old(conn.sent)|] == old(conn.sent)
      ensures |conn.sent| - |old(conn.sent)| == if failing < |requests| then failing else |requests|
      ensures forall j | |old(conn.sent)| <= j < |conn.sent| ::
                conn.sent[j] == Wire(requests[j - |old(conn.sent)|].id, "", bodies[j - |old(conn.sent)|])
    {
      var j := 0;
      while j < |requests|
        invariant j <= |requests| && j <= failing
        invariant Valid() && conn.open && subscribers - {conn} == old(subscribers)
        invariant conn in subscribers <==> exists i | 0 <= i < j :: requests[i].verb == "subscribe"
        invariant conn.sent == old(conn.sent) + Answers(requests, bodies)[..j]
      {
        if requests[j].verb == SUBSCRIBE {
          HandleSubscribe(conn);
        }
        if j == failing {
          break;
        }
        conn.sent := conn.sent + [Wire(requests[j].id, "", bodies[j])];
        j := j + 1;
      }
    }

    /** `handleConnection`: serve the requests read before the stream ends, leave the subscriber set, then close. */
    method HandleConnection(conn: Connection, requests: seq<Request>, bodies: seq<Body>, failing: nat)
      requires Valid() && conn.open && conn !in subscribers && |bodies| == |requests|
      modifies this, conn
      ensures Valid() && !conn.open && subscribers == old(subscribers)
      ensures |old(conn.sent)| <= |conn.sent| && conn.sent[..|old(conn.sent)|] == old(conn.sent)
      ensures |conn.sent| - |old(conn.sent)| == if failing < |requests| then failing else |requests|
      ensures forall j | |old(conn.sent)| <= j < |conn.sent| ::
                conn.sent[j] == Wire(requests[j - |old(conn.sent)|].id, "", bodies[j - |old(conn.sent)|])
    {
      ServeRequests(conn, requests, bodies, failing);
      subscribers := subscribers - {conn};
      conn.open := false;
    }
  }
}
