# Gurren: a verified model of the tunnel daemon

Gurren is an SSH tunnel manager: a background daemon owns a set of tunnels, and clients talk to
it over a socket. This project models its concurrent core in Dafny and proves what that core
guarantees over every interleaving. SSH and sockets are oracles here: dials, accepts, copies and
reads succeed, fail or return at arbitrary moments.

`dafny verify dfyconfig.toml` checks everything.

## How the model is built

* **One tunnel run** (`TunnelRun.dfy`, `TunnelObjects.dfy`). The SSH dial, the listener, the accept
  loop with its WaitGroup, the cancellation goroutine, and per connection a handler with two
  copiers and a buffered `done` channel. Every point where goroutines can interleave is one step.
* **The tunnel manager** (`ManagerMemory.dfy`, `ManagerObjects.dfy`, `ManagerMachine.dfy`,
  `ManagerInvariant.dfy`, `ManagerHistory.dfy`, `ManagerTheorems.dfy`, `ManagerLifecycle.dfy`,
  `ManagerShutdown.dfy`, `ManagerReports.dfy`).
  `ManagerMemory` says what each locked region does to the shared memory; `ManagerObjects` is the
  same code as mutable objects with pointers, proved to do exactly that; `ManagerMachine`
  interleaves the regions with callbacks, delayed deletes and tunnel runs. A goroutine keeps the
  object it captured even after the object has left the map, and each run embeds a whole
  `TunnelRun` state, so that what a run returns is proved and not assumed. Sleeps are arbitrary
  interleaving.
* **Client and daemon** (`RpcClient.dfy`, `RpcSystem.dfy`, `RpcObjects.dfy`). Concurrent calls with
  one-slot channels, the pending map, the read loop and the bounded notification queue; first
  against an arbitrary peer, then composed with the daemon's in-order handler and with broadcasts
  mixed into the same stream. Streams carry whole messages. IDs come from a 64-bit counter that
  wraps around; they are echoed as in section 5 of the JSON-RPC 2.0 specification, and
  notifications carry none, as in its section 4.1.
* **Subscribers** (`Subscribers.dfy`). The subscriber set under its read/write lock, the
  per-connection mutex, handlers that subscribe, answer, leave and close, and broadcasts. That
  nobody deadlocks supposes that Encode calls on a socket return; what happens while one does not
  is proved separately.
* **Parts together** (`Pipeline.dfy`, `PipelineTheorems.dfy`, `ManagedCalls.dfy`, `StartCalls.dfy`). Manager,
  subscriber set and one connection as one step system: the manager's callback is a broadcast, the
  handler of the watched connection is the connection's own, and what a broadcast writes there is
  what the client reads. In `ManagedCalls` a client's stop and status calls meet the manager, in
  `StartCalls` the start handler's lookup and host parsing do.
* **Names, addresses and error codes** (`Text.dfy`, `Config.dfy`, `Hosts.dfy`, `ErrorText.dfy`,
  `Handlers.dfy`). Duplicate-name suffixing, the two host parsers, `%q` quoting, and error codes
  that are chosen by substring search.

Inputs that are parameters of the model: results of dials, accepts and copies; contents of the
connection; candidate names drawn by `Register`; SSH configuration lookups; whether authentication
methods were found; Unicode printability outside ASCII.

## Where the code does not do what it says

* `Stop` is documented to remove an ephemeral tunnel after stopping it. A stop schedules one delete
  (`StopSchedulesItsDelete`, `DeletePendingUntilItFires`), and the stopped tunnel is gone exactly
  when some delete or unregister of its name found it without an unfinished run
  (`StoppedEphemeralLeavesExactly`). In `StoppedEphemeralCanStay` the only delete came too early:
  the stopped, idle tunnel stays until somebody stops or unregisters it again.
* The stop handler tells "not found" from "not running" by searching the error text, which quotes
  the name. `StopCodesExact` gives the exact condition on the name; besides names that contain
  "not found" it is a newline followed by "ot found", because `%q` writes the newline as `\n`.
* The start handler looks a tunnel up and starts it in a later region, by name. If an ephemeral
  tunnel was replaced by another of the same drawn name in between, the run dials the old host and
  forwards the new addresses (`StartCanMixTunnels`); `StartServesTheTunnelLookedUp` says when not.
* Final tunnel names can collide although duplicates are numbered: `NamesDistinctExactly` says
  exactly when, `CollisionExample` shows it.
* The manager's index keeps the last entry of a repeated name, the linear scan finds the first:
  `IndexAgreesWithScan` says exactly when they agree, `IndexAndScanDisagree` shows a list that
  loading produces on which they do not. An entry that is not the last of its name can never be
  started (`ShadowedEntryNeverStarts`).
* One client that stops reading stops the others: while an Encode call on its connection does not
  return, nobody can subscribe or leave (`StuckEncodeFreezes`), and as soon as somebody tries, no
  further broadcast begins (`StuckEncodeBlocksBroadcasts`). `StuckIsReachable` is an execution that
  gets there.

One weakness is out of reach unless the name generator helps: the start handler recognises an active
tunnel by the word "already" in the error text, and only tunnels with drawn names can vanish before
the start (`VanishedWasDrawn`). As long as no drawn name reads "already", the answer TunnelActive is
exact (`ActiveCodeExact`); with such a name it would not be (`WrongStartCode`).

## Model

| member | source | states |
|---|---|---|
| TunnelRun.SendNeverBlocks | internal/tunnel/tunnel.go:115-132 | a copier that is done can always send on the buffered channel, so no copier leaks |
| TunnelRun.StepKeepsInv | internal/tunnel/tunnel.go:29-143 | every step keeps: the WaitGroup counts the unfinished handlers and never goes below zero, every `done` value is buffered or received, draining and closing only after cancellation |
| TunnelRun.ClosedRunReleasesEverything | internal/tunnel/tunnel.go:63-143 | a run that returns ErrTunnelClosed was cancelled, every accepted connection's handler has finished with both ends closed, and listener and SSH connection are closed |
| TunnelRun.FailedRunAcceptedNothing | internal/tunnel/tunnel.go:36-54 | a run that returns another error accepted no connection, left neither listener nor SSH connection open, and its text is one of the two the code builds |
| TunnelRun.OpensItsTarget | internal/tunnel/tunnel.go:29-93 | what a run has open is its target's SSH host and user, its local address and, per connection, its remote address; after the return nothing |
| TunnelRun.RefusedConnectionIsClosed | internal/tunnel/tunnel.go:96-108 | a connection whose remote cannot be dialled is closed and leaves the WaitGroup, with no other step possible and no copier started |
| TunnelRun.DialledConnectionCopies | internal/tunnel/tunnel.go:104-143 | a dialled connection has both ends open and exactly its two copies, or cancellation, can happen next |
| TunnelRun.RankDrops | internal/tunnel/tunnel.go:63-143 | once cancellation has closed the listener, every step of every goroutine lowers one measure |
| TunnelRun.CancelledRunMoves | internal/tunnel/tunnel.go:63-143 | a cancelled run that has not returned always has a step that is owed to it (dials return, copies with a closed end return) |
| TunnelRun.CancelledRunReturns | internal/tunnel/tunnel.go:63-143 | after that point no schedule is longer than the measure, and a schedule with nothing owed has returned ErrTunnelClosed with all connections released and all copiers gone |
| TunnelObjects.TunnelProcess.Dial | internal/tunnel/tunnel.go:36-47 | dial result to next phase or returned error text |
| TunnelObjects.TunnelProcess.Listen | internal/tunnel/tunnel.go:49-72 | listener opened and cancellation goroutine spawned, or returned error text |
| TunnelObjects.TunnelProcess.AcceptLoop | internal/tunnel/tunnel.go:74-93 | one WaitGroup slot and one new handler per accepted connection, errors skipped until the first with the context done, which starts draining; nothing else of the run changes |
| TunnelObjects.TunnelProcess.AcceptOne | internal/tunnel/tunnel.go:75-92 | one turn of the loop is the accept step of the run |
| TunnelObjects.TunnelProcess.CloseOnCancel | internal/tunnel/tunnel.go:68-72 | the cancellation goroutine closes the listener and nothing else |
| TunnelObjects.TunnelProcess.Drain | internal/tunnel/tunnel.go:79-82 | after the WaitGroup reaches zero the run returns ErrTunnelClosed |
| ManagerMemory.LastEntryIsLast | internal/tunnel/manager.go:46-52 | the initial index maps every configured name to its last entry |
| ManagerMemory.DrawIsFirstFree | internal/tunnel/manager.go:258-264 | the drawing loop ends with the first free draw, or with the last one if none is free |
| ManagerInvariant.StepKeepsInv | internal/tunnel/manager.go:76-302 | all locked regions, callbacks, delayed deletes and tunnel steps, in any order, keep the joint invariant of ownership, index, configured tunnels, error texts and runs |
| ManagerInvariant.EphemeralIsNotConfigured | internal/tunnel/manager.go:253-278 | an indexed tunnel is ephemeral exactly when its name is not configured |
| ManagerHistory.StepKeepsHistory | internal/tunnel/manager.go:85-148 | every step keeps the status writes lawful, each write the doing of exactly one run, and each callback truthful and counted once |
| ManagerTheorems.Safety | internal/tunnel/manager.go:40-302 | invariant and histories hold in every state of every execution |
| ManagerTheorems.ActiveMeansOneRun | internal/tunnel/manager.go:76-192 | active if and only if cancel is set if and only if there is an unfinished run; that run is unique and is the one cancel cancels |
| ManagerTheorems.UnfinishedRunIsIndexed | internal/tunnel/manager.go:179-187 | no deletion orphans a run: its object is indexed under the run's name |
| ManagerTheorems.StopAllCancelsAllRuns | internal/tunnel/manager.go:227-236 | StopAll cancels the context of exactly the unfinished runs |
| ManagerTheorems.StopCancelsThatRun | internal/tunnel/manager.go:158-175 | Stop cancels exactly the unfinished run started under that name |
| ManagerTheorems.CancelledRunWasStopped | internal/tunnel/manager.go:173-235 | a cancelled context goes back to an earlier Stop of that tunnel or StopAll, made while the run was unfinished |
| ManagerTheorems.DisconnectedRunWasStopped | internal/tunnel/manager.go:115-124 | a run ends Disconnected only if such a step cancelled that same run, and then all its connections are released |
| ManagerTheorems.FailedRunReportsItsTarget | internal/tunnel/manager.go:107-120 | a run that ends in Error reports a failure of its own target and accepted nothing |
| ManagerTheorems.StartedRunIsConnected | internal/tunnel/manager.go:139-151 | a run whose Start has passed its last region is connected for as long as it goes on, stale promotes included |
| ManagerTheorems.PromotionSettlesTheRun | internal/tunnel/manager.go:136-153 | when Start returns, its run is connected or has finished |
| ManagerTheorems.OnlyTheWorkerEnds | internal/tunnel/manager.go:117-126 | only the worker of its own run takes an object out of activity |
| ManagerTheorems.WritesAreCycles | internal/tunnel/manager.go:85-142 | the status writes of an object are a prefix of repeated Connecting, optional Connected, Error or Disconnected |
| ManagerTheorems.BegunMinusEnded | internal/tunnel/manager.go:85-126 | runs begun minus runs ended is one while active and zero otherwise |
| ManagerTheorems.CallbacksOfARun | internal/tunnel/manager.go:98-148 | one Connecting callback, at most one Connected, one end callback per run, and no other callback carries its number |
| ManagerTheorems.ConnectingComesFirst | internal/tunnel/manager.go:101-134 | the Connecting callback of a run completes before any other callback of that run |
| ManagerTheorems.CallbacksMatchWrites | internal/tunnel/manager.go:98-148 | once an object's goroutines are gone, callbacks and status writes match one for one for every status |
| ManagerTheorems.DaemonAnnouncesEveryWrite | internal/daemon/daemon.go:56-57 | with the callback the daemon installs first, every status a tunnel ever had is announced exactly as often as it was written |
| ManagerTheorems.ConfiguredStays | internal/tunnel/manager.go:40-55 | a configured tunnel is never removed, replaced or reconfigured, and no pending delete names it |
| ManagerTheorems.OnlyIdleEphemeralsLeave | internal/tunnel/manager.go:179-302 | whatever a step removes was idle, ephemeral and not configured |
| ManagerTheorems.EntriesHaveDistinctNames | internal/tunnel/manager.go:208-224 | each key is its entry's name, so no two entries share one |
| ManagerTheorems.IndexAgreesWithScan | internal/tunnel/manager.go:239-249 | a name found by the scan is always indexed, with the same config exactly when its first and last entry are equal |
| ManagerTheorems.RegisterExact | internal/tunnel/manager.go:253-279 | Register fails exactly when all ten draws are taken, else adds one idle ephemeral tunnel with the host, remote and local address asked for under the first free draw |
| ManagerLifecycle.StopSchedulesItsDelete | internal/tunnel/manager.go:158-188 | from any state, Stop leaves exactly one more delete when it stops an ephemeral tunnel and none otherwise |
| ManagerLifecycle.DeletePendingUntilItFires | internal/tunnel/manager.go:177-188 | over any execution that delete stays pending until it fires |
| ManagerLifecycle.DeleteSparesExactlyRunning | internal/tunnel/manager.go:179-187 | in a reachable state a delete leaves an object of its name indexed exactly when the object has an unfinished run |
| ManagerLifecycle.StoppedEphemeralLeavesExactly | internal/tunnel/manager.go:156-188 | at any later point of any execution a stopped ephemeral tunnel is still indexed exactly when every delete and unregister of its name since the Stop found it with an unfinished run |
| ManagerLifecycle.EntryStays | internal/tunnel/manager.go:156-302 | an entry with no pending delete stays, with its config, through any steps that neither stop nor unregister it |
| ManagerLifecycle.StoppedEphemeralCanStay | internal/tunnel/manager.go:156-188 | a reachable state with a stopped, idle ephemeral tunnel that stays in every continuation without a further Stop or Unregister of its name |
| ManagerLifecycle.ShadowedEntryNeverStarts | internal/tunnel/manager.go:46-52 | in no execution does a configured entry that is not the last of its name get a run |
| ManagerLifecycle.IndexAndScanDisagree | internal/config/config.go:99-123 | names a, a, a-2 become a, a-2, a-2; for a-2 the scan finds the second entry and the index the third |
| ManagerLifecycle.VanishedWasDrawn | internal/tunnel/manager.go:253-302 | a name indexed at one point of an execution and not at a later one is not configured and was among the names an earlier Register drew |
| ManagerShutdown.GoroutinesCanMove | internal/tunnel/manager.go:98-151 | no goroutine of a run is ever stuck in the manager: its next region or the return of its callback is possible |
| ManagerShutdown.StopAllEndsEverything | internal/daemon/daemon.go:219-225 | after StopAll with no run begun since, a schedule to which nothing is owed has ended every run with all its goroutines, left every tunnel idle without a cancel function, released every connection and left no listener or SSH connection open |
| ManagerShutdown.ShutdownIsBounded | internal/tunnel/tunnel.go:63-143 | once no run can accept another connection and no run is begun, the goroutines of all runs together take at most as many steps as their total rank, in any schedule |
| ManagerReports.RunOrigin | internal/tunnel/manager.go:77-113 | every run goes back to one Start call on an idle tunnel: its name, SSH host and user are that call's, its addresses that tunnel's, its callback the one installed then |
| ManagerReports.RunServesItsTunnel | internal/tunnel/manager.go:107-115 | what a run has open is that call's SSH host and user, its tunnel's configured local address and, per connection, its configured remote address; nothing once it has returned |
| ManagerReports.RunEnd | internal/tunnel/manager.go:115-129 | a finished run goes back to the step at which its worker found the tunnel returned with that outcome, with the callback installed then |
| ManagerReports.RunPromotion | internal/tunnel/manager.go:139-151 | a promoted run was found connecting by the last region of its Start, with the callback installed then |
| ManagerReports.FailureHasItsCause | internal/tunnel/tunnel.go:36-54 | a failed run goes back to one failed dial, whose text names the SSH host, or one failed listen, whose text names the local address, with that step's cause |
| ManagerReports.StatusTellsTheLastRun | internal/tunnel/manager.go:85-142 | status and text of a tunnel are what its last run makes them: never run, under way, closed, or failed with exactly the returned text |
| ManagerReports.ErrorTextIsTheRunsOwn | internal/tunnel/manager.go:115-124 | a tunnel in status Error shows the very text its last run returned |
| ManagerReports.CallbacksAreTrue | internal/tunnel/manager.go:98-148 | each callback carries its run's name, and an end callback exactly the outcome and text of that run |
| ManagerReports.EndCallbackMatchesStatus | internal/tunnel/manager.go:117-134 | until the tunnel is started again, its status and text are those its end callback carried |
| ManagerReports.NoHookNoCallback | internal/tunnel/manager.go:57-62 | without an installed callback none ever fires |
| ManagerReports.RegisterAdds | internal/tunnel/manager.go:271-276 | field by field, what a successful Register adds |
| ManagerReports.RegisteredTunnelIsAsked | internal/tunnel/manager.go:239-276 | at any later point a registered tunnel has the host, remote and local address asked for, its name looks them up while it is indexed, and every run on it forwards between them |
| ManagerObjects.Manager.constructor | internal/tunnel/manager.go:40-55 | builds the objects of the initial memory |
| ManagerObjects.Manager.BeginStart | internal/tunnel/manager.go:77-99 | refuses or marks the object connecting with a fresh context, as the memory model says |
| ManagerObjects.Manager.FinishWorker | internal/tunnel/manager.go:117-129 | the worker's region, through the captured object: Error with the returned text, or Disconnected without one |
| ManagerObjects.Manager.PromoteStart | internal/tunnel/manager.go:139-151 | the last region of Start, through the captured object |
| ManagerObjects.Manager.StopTunnel | internal/tunnel/manager.go:158-192 | cancels the context the object points to and tells whether a delete is scheduled |
| ManagerObjects.Manager.DeleteIfIdle | internal/tunnel/manager.go:179-187 | the delayed delete |
| ManagerObjects.Manager.StopEverything | internal/tunnel/manager.go:227-236 | the loop cancels exactly what some entry can cancel |
| ManagerObjects.Manager.RegisterTunnel | internal/tunnel/manager.go:253-279 | the drawing loop and the insertion, with the host and addresses asked for |
| ManagerObjects.Manager.UnregisterTunnel | internal/tunnel/manager.go:283-302 | refusals and removal |
| ManagerObjects.Manager.SetOnChange | internal/tunnel/manager.go:58-62 | only the installed callback changes |
| ManagerObjects.Manager.GetStatus | internal/tunnel/manager.go:195-205 | status and text of an indexed tunnel, or the sentinel |
| ManagerObjects.Manager.GetConfig | internal/tunnel/manager.go:239-249 | the indexed config, if any |
| ManagerObjects.Manager.List | internal/tunnel/manager.go:208-224 | exactly one entry per indexed tunnel; with every tunnel under its own name, no name twice |
| RpcClient.NeverBlocks | internal/daemon/client.go:62-98 | with any peer, repeated or invented IDs and any number of calls, every pending channel has its slot free, so the read loop can always take the next message |
| RpcClient.ClosingFreesCallers | internal/daemon/client.go:147-152 | once the read loop has ended, every waiting call can return and no message is delivered |
| RpcClient.ReturnIsTrue | internal/daemon/client.go:112-154 | a call returns once, and what it returns says how: its channel's content, a marshalling error, a failed send, or the closed connection |
| RpcSystem.CallReturnsAnswerToItsID | internal/daemon/client.go:62-154 | whatever the number of calls, a call that succeeds returns an answer the daemon made to a request with its ID |
| RpcSystem.RequestIsAsAsked | internal/daemon/client.go:112-138 | every request on the wire carries the method and parameters some caller gave, under the number of that call |
| RpcSystem.CallReturnsItsOwnAnswer | internal/daemon/client.go:62-154 | below 2^64 calls, a call made with a method and parameters that succeeds returns the answer to the one request it sent, which carried just those |
| RpcSystem.CallErrorsAreTrue | internal/daemon/client.go:117-152 | a returned call's request is on the wire exactly unless it returned a marshalling or sending error |
| RpcSystem.NothingDeliveredTwice | internal/daemon/client.go:77-86 | no message goes to two calls and no call gets two messages |
| RpcSystem.NoAnswerLost | internal/daemon/client.go:76-154 | below 2^64 calls, once the read loop has passed an answer, its call has it or has returned |
| RpcSystem.AnswersInOrder | internal/daemon/daemon.go:147-166 | the stream back carries the answers in request order, IDs echoed, whatever broadcasts are mixed in |
| RpcSystem.NotificationsInOrder | internal/daemon/client.go:88-96 | consumed plus queued notifications are an in-order subsequence of those written, at most 100 queued |
| RpcSystem.NothingDropped | internal/daemon/client.go:88-96 | consumed plus queued is everything read exactly when no notification was read with 100 queued; otherwise some are missing from then on |
| RpcObjects.QueueKeepsFirst | internal/daemon/client.go:50-96 | without a consumer the queue is exactly the first hundred notifications |
| RpcObjects.ClientObject.StartCall | internal/daemon/client.go:112-128 | the next ID of the wrapping 64-bit counter |
| RpcObjects.ClientObject.AddPending | internal/daemon/client.go:130-134 | the channel enters the pending map |
| RpcObjects.ClientObject.DropPending | internal/daemon/client.go:140-145 | the channel leaves it after a failed send |
| RpcObjects.ClientObject.AwaitReply | internal/daemon/client.go:147-150 | the call returns what is in its channel and empties it |
| RpcObjects.ClientObject.DeliverOne | internal/daemon/client.go:76-96 | one message goes to its channel, to the queue or nowhere |
| RpcObjects.ClientObject.ReadLoop | internal/daemon/client.go:62-98 | the loop does this for every message, then closes |
| RpcObjects.ClientObject.NextNotification | internal/daemon/client.go:107-109 | takes the oldest notification off the queue, or nothing when there is none |
| RpcObjects.DaemonObject.BroadcastStatusChange | internal/daemon/daemon.go:199-216 | one notification appended for every subscriber whose Encode call succeeds, whatever the others do, and nothing for anyone else |
| RpcObjects.DaemonObject.HandleSubscribe | internal/daemon/handlers.go:14-20 | the connection, and no other, enters the set |
| RpcObjects.DaemonObject.ServeRequests | internal/daemon/daemon.go:147-166 | one answer per request in order with its ID and body up to the first Encode call that fails; the connection is in the set exactly if a request handled was a subscription |
| RpcObjects.DaemonObject.HandleConnection | internal/daemon/daemon.go:136-172 | the same answers, then out of the set, then closed |
| Subscribers.StepKeepsInv | internal/daemon/daemon.go:136-216 | every step keeps lock discipline, membership, walks, mutex ownership and notification counts |
| Subscribers.NoWriteAfterClose | internal/daemon/daemon.go:199-216 | no write on a connection whose handler has left the set or closed it |
| Subscribers.OneWriterAtATime | internal/daemon/daemon.go:159-214 | writes on one connection never overlap |
| Subscribers.LeftForGood | internal/daemon/daemon.go:168-172 | a handler that has left the subscriber set never reappears in it |
| Subscribers.BroadcastReachesEachOnce | internal/daemon/daemon.go:206-215 | a finished broadcast wrote once to each subscriber it found and to nobody else |
| Subscribers.SubscribedUntilItLeaves | internal/daemon/handlers.go:14-20 | once inserted, a connection is in the set until its own handler leaves |
| Subscribers.SubscriberIsNotified | internal/daemon/daemon.go:199-216 | who subscribed before a broadcast took the lock and had not left gets that broadcast exactly once |
| Subscribers.FailedHandlerLeaves | internal/daemon/daemon.go:147-172 | a handler whose read or Encode call fails reads and answers no more, and once nothing is left to do it is out of the set and closed |
| Subscribers.OneReplyPerRequest | internal/daemon/daemon.go:147-166 | a handler makes one Encode call per request it takes, subscriptions included, before it takes the next |
| Subscribers.NoDeadlock | internal/daemon/daemon.go:136-216 | provided Encode calls on sockets return, the read/write lock and the connection mutexes never deadlock, even when a waiting writer keeps readers out |
| Subscribers.StuckEncodeFreezes | internal/daemon/daemon.go:206-215 | while no Encode call on a connection returns, a broadcast that has reached it stays there, the subscriber set does not change and every handler that wants to subscribe or leave keeps waiting |
| Subscribers.StuckEncodeBlocksBroadcasts | internal/daemon/daemon.go:206-215 | and once such a handler waits, every broadcast not yet under the read lock, begun or still to come, waits too |
| Subscribers.BroadcastsOverlap | internal/daemon/daemon.go:206-215 | an execution in which two broadcasts walk the set at the same time |
| Subscribers.StuckIsReachable | internal/daemon/daemon.go:206-215 | an execution with Go's order at the lock that ends with a broadcast inside its Encode call and another client waiting to subscribe behind it |
| Pipeline.Safety | internal/daemon/daemon.go:198-216 | in every state of every joint execution manager, subscriber set and connection keep their invariants, each callback is matched with one broadcast, done if the callback has returned, and the watched handler has an answer whenever it is about to write one |
| Pipeline.CallbackUndisturbed | internal/tunnel/manager.go:98-148 | no other step of the manager disturbs a callback in progress or changes what it reports |
| Pipeline.CallbackCanReturn | internal/daemon/daemon.go:198-216 | a callback can return exactly when its broadcast is done |
| Pipeline.CallbackProgress | internal/daemon/daemon.go:198-216 | provided Encode calls return, as long as a callback has not returned the composed system has a step that waits for no client and no new work |
| PipelineTheorems.ReceivesEveryCallback | internal/daemon/client.go:88-96 | once settled, a client subscribed from the start has every callback the manager ever made exactly once and nothing else, if no notification to it failed or was read into a full queue, and fewer otherwise |
| PipelineTheorems.ClientSeesEveryWrite | internal/daemon/daemon.go:56-57 | such a client has been told that a name is in a status exactly as often as that status was written to tunnels of that name |
| PipelineTheorems.BeginningsComeFirst | internal/tunnel/manager.go:101-134 | at any time, whatever was lost or dropped, what a client has received can be attributed to different callbacks so that a run's Connecting never comes after anything else of that run |
| ManagedCalls.CallIsAnsweredAtOnce | internal/daemon/client.go:112-154 | below 2^64 calls a stop or status call is answered at one step of the manager, after the call was made and before it returned, for the parameters the caller gave |
| ManagedCalls.StopCallStops | internal/daemon/client.go:203-212 | a stop call that returns success had a step at which exactly one run of that name was unfinished, and that step left its context cancelled |
| ManagedCalls.StopCallRefused | internal/daemon/handlers.go:69-90 | a refused stop call changed nothing; its message says truly whether the tunnel was absent or idle at that step, and so does its code unless the name is misleading |
| ManagedCalls.StatusCallIsTrue | internal/daemon/handlers.go:93-113 | a status call returns the status and text the tunnel had at one step while the call was under way, or that it was not found at that step |
| ManagedCalls.NamelessCallIsRejected | internal/daemon/handlers.go:69-102 | a stop or status call without a usable name is told so and changes nothing |
| StartCalls.StartServesTheTunnelLookedUp | internal/daemon/handlers.go:33-58 | the run of a start request dials the parsed host that was looked up and forwards between the addresses of the tunnel found at the start; they are one tunnel's unless its entry was replaced, which never happens to a configured one |
| StartCalls.StartCanMixTunnels | internal/daemon/handlers.go:33-58 | an execution in which the entry was replaced between lookup and start |
| Text.DecimalRoundTrip | internal/daemon/client.go:113-113 | parsing the printed number gives it back, so printing is injective |
| Config.DeriveNames | internal/config/config.go:92-97 | in place, a missing name becomes the part of a non-empty host after its first at sign, or the whole host; nothing else changes |
| Config.NumberNames | internal/config/config.go:99-109 | the k-th entry of a name keeps it for k = 1 and becomes name-k otherwise, in place |
| Config.NamesDistinctExactly | internal/config/config.go:99-109 | final names are pairwise distinct exactly when no original name equals a generated one |
| Config.CollisionExample | internal/config/config.go:99-109 | three entries of which two end up with one name |
| Config.GetTunnelByName | internal/config/config.go:116-123 | the first entry of that name, or none if there is none |
| Hosts.ParsersAgree | internal/daemon/handlers.go:177-202 | both parsers give the same user and address on every explicit address, and on an alias exactly when it resolves to itself on port 22 without a user |
| Hosts.DaemonParseExact | internal/daemon/handlers.go:177-202 | user and address are split at the first at sign, port 22 is added only when there is no colon, and an alias is what the SSH configuration says |
| Hosts.TuiParseInverts | internal/tui/details.go:147-166 | parsing a rebuilt user, host and port gives the parts back |
| Hosts.TuiParseDefaults | internal/tui/details.go:147-166 | without an at sign there is no user, without a colon the port is 22 |
| Hosts.DerivedNameIsAddress | internal/config/config.go:35-41 | a derived name is the daemon's address up to the default port |
| ErrorText.EscapeRoundTrip | internal/tunnel/manager.go:161-170 | reading a `%q`-quoted name back gives the name |
| ErrorText.QuoteIsInjective | internal/tunnel/manager.go:161-170 | different names are quoted differently, so a message identifies its tunnel |
| ErrorText.RefusalTexts | internal/tunnel/manager.go:79-88 | when Start, Stop and Unregister refuse, in which order, and with which words |
| ErrorText.MessageContains | internal/tunnel/manager.go:161-170 | a phrase found in an error message lies in the fixed words or inside the quoted name, never across a quotation mark |
| ErrorText.EscapedContains | internal/daemon/handlers.go:79-87 | exactly where a phrase can appear inside a `%q`-quoted name |
| Handlers.StopCodesExact | internal/daemon/handlers.go:69-90 | absent gives TunnelNotFound; present but idle gives TunnelInactive exactly when the name is not misleading |
| Handlers.WrongStopCode | internal/daemon/handlers.go:79-87 | a configured idle tunnel that is reported as not found |
| Handlers.VanishedCode | internal/daemon/handlers.go:53-58 | a tunnel that vanished before the start is an internal error exactly when no character of its name that is written ending in the letter a is followed by "lready" |
| Handlers.EndsInA | internal/daemon/handlers.go:54-54 | exactly which characters `%q` writes so that they end in the letter a |
| Handlers.StartCodesExact | internal/daemon/handlers.go:23-66 | for every execution, lookup step, later start step and authentication result: TunnelNotFound exactly for names not indexed at lookup (the fallback finds nothing more), else AuthRequired without methods, else TunnelActive or success by the status found; a vanished tunnel had a drawn name that is not configured |
| Handlers.ActiveCodeExact | internal/daemon/handlers.go:52-58 | if no drawn name reads "already", TunnelActive is answered exactly for an authorised start of a tunnel that Start finds active |
| Handlers.WrongStartCode | internal/daemon/handlers.go:53-55 | with the drawn name "already" a vanished tunnel is answered with TunnelActive |
| Handlers.StatusCodesExact | internal/daemon/handlers.go:93-113 | TunnelNotFound exactly for names not indexed; error text non-empty exactly in status Error |
| Handlers.NamelessIsRejected | internal/daemon/handlers.go:23-102 | start, stop and status answer InvalidParams exactly for a request without a usable name |

## Left out

- Order of callbacks against status writes: callbacks run after the lock is released, so the code does not ensure it.
- Marking a cancelled run as connected: the last region of `Start` may do so, and the model lets it.
- SSH dialling, keys, agents and passwords: oracles; authentication only appears as a yes or no.
- JSON bytes and partial socket writes: streams are sequences of whole messages, since every write is made under a lock; a failed send leaves no message.
- Wall-clock time: sleeps are arbitrary interleaving and `startedAt` is not modelled, since nothing depends on it.
- Names that are not valid UTF-8: a name is a sequence of Unicode characters.
- Handler and copier goroutines of a tunnel run: modelled on values inside `TunnelRun`, not as objects.
- RpcObjects.DaemonObject.ServeRequests: runs one connection without interference from broadcasts; the interleaving is in `Subscribers`.
- PipelineTheorems.ClientSeesEveryWrite: takes parsing to invert rendering, since JSON bytes are not modelled.
- ManagerObjects.Manager.BeginStart: names the status it saw under the lock in its refusal; the program reads it again after unlocking, so its text may say "is already disconnected". No error code depends on it.
- The word lists of the name generator: drawn names are arbitrary, and `ActiveCodeExact` says what is needed of them.
- Subscribers.NoDeadlock: supposes that Encode calls return, which the code does not ensure; `StuckEncodeFreezes` says what follows when one does not.
- Pipeline.CallbackProgress: supposes the same.
- TunnelObjects.TunnelProcess.AcceptLoop: runs the loop without interference from handlers; their interleaving is in `TunnelRun`.
- Ping, register, list and shutdown handlers and request dispatch: they only build answers around operations modelled here.
- Configuration files, environment and the socket path: the model starts from the unmarshalled tunnel list.
- SSH configuration files: the lookup is a parameter.
- Commands, service installation and the terminal interface, apart from its host parser.
- `notifyChange`: never called.
