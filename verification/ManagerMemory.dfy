/**
 * The memory the tunnel manager shares between goroutines (internal/tunnel/manager.go,
 * internal/tunnel/state.go), and the effect of each of its locked regions on that memory.
 *
 * A tunnel object is identified by its position in `objs`, so a goroutine can hold on to an
 * object that has left the index; a context is identified by its position in `cancelled`.
 */
module ManagerMemory {
  import opened Prelude
  import Config
  import TunnelRun

  datatype Status = Disconnected | Connecting | Connected | Error

  predicate IsActive(s: Status) {
    s == Connecting || s == Connected
  }

  type TunnelConfig = Config.TunnelConfig

  /** A `ManagedTunnel`; `cancel` names the context it would cancel. */
  datatype Tunnel = Tunnel(config: TunnelConfig, status: Status, error: string, ephemeral: bool, cancel: Option<nat>)

  /** `index` is the manager's `tunnels` map, `onChange` whether a callback is installed. */
  datatype Memory = Memory(objs: seq<Tunnel>, index: map<string, nat>, cancelled: seq<bool>, onChange: bool)

  datatype OpError =
    | NotFound(name: string)
    | AlreadyActive(name: string, status: Status)
    | NotRunning(name: string)
    | NotEphemeral(name: string)
    | StillActive(name: string)

  /** No dangling references. */
  ghost predicate Sound(m: Memory) {
    && (forall n | n in m.index :: m.index[n] < |m.objs|)
    && (forall o | 0 <= o < |m.objs| && m.objs[o].cancel.Some? :: m.objs[o].cancel.value < |m.cancelled|)
  }

  // -------------------------------------------------------------- construction

  function FreshTunnel(tc: TunnelConfig, ephemeral: bool): Tunnel {
    Tunnel(tc, Disconnected, "", ephemeral, None)
  }

  /** Position of the last entry of each name: later entries overwrite earlier ones. */
  function LastEntry(cfg: seq<TunnelConfig>): map<string, nat> {
    if cfg == [] then map[]
    else LastEntry(cfg[..|cfg| - 1])[cfg[|cfg| - 1].name := |cfg| - 1]
  }

  /** `i` is the last entry called `n`. */
  ghost predicate IsLast(cfg: seq<TunnelConfig>, n: string, i: nat) {
    i < |cfg| && cfg[i].name == n && forall j | i < j < |cfg| :: cfg[j].name != n
  }

  lemma {:induction false} LastEntryIsLast(cfg: seq<TunnelConfig>)
    ensures forall n | n in LastEntry(cfg) :: IsLast(cfg, n, LastEntry(cfg)[n])
    ensures forall i | 0 <= i < |cfg| :: cfg[i].name in LastEntry(cfg)
  {
    if cfg != [] {
      var k := |cfg| - 1;
      var rest := cfg[..k];
      LastEntryIsLast(rest);
      forall n | n in LastEntry(cfg)
        ensures IsLast(cfg, n, LastEntry(cfg)[n])
      {
        if n != cfg[k].name {
          assert IsLast(rest, n, LastEntry(rest)[n]);
        }
      }
      forall i | 0 <= i < |cfg|
        ensures cfg[i].name in LastEntry(cfg)
      {
        assert i < k ==> rest[i].name in LastEntry(rest);
      }
    }
  }

  function NewMemory(cfg: seq<TunnelConfig>): Memory {
    Memory(seq(|cfg|, i requires 0 <= i < |cfg| => FreshTunnel(cfg[i], false)), LastEntry(cfg), [], false)
  }

  // -------------------------------------------------------------- locked regions

  /** Why `Start` refuses before doing anything, if it does. */
  function StartError(m: Memory, name: string): Option<OpError>
    requires Sound(m)
  {
    if name !in m.index then Some(NotFound(name))
    else if IsActive(m.objs[m.index[name]].status) then Some(AlreadyActive(name, m.objs[m.index[name]].status))
    else None
  }

  /** First region of `Start`: mark the tunnel connecting and give it a fresh context. */
  function Begin(m: Memory, name: string): Memory
    requires Sound(m) && StartError(m, name) == None
  {
    var o := m.index[name];
    m.(objs := m.objs[o := m.objs[o].(status := Connecting, error := "", cancel := Some(|m.cancelled|))],
       cancelled := m.cancelled + [false])
  }

  /** Region at the end of the worker goroutine, through its captured object. */
  function Finish(m: Memory, o: nat, outcome: TunnelRun.Outcome): Memory
    requires o < |m.objs|
  {
    var mt := match outcome
      case Failed(text) => m.objs[o].(status := Error, error := text, cancel := None)
      case Closed => m.objs[o].(status := Disconnected, error := "", cancel := None);
    m.(objs := m.objs[o := mt])
  }

  /** Last region of `Start`, through its captured object. */
  function Promote(m: Memory, o: nat): Memory
    requires o < |m.objs|
  {
    if m.objs[o].status == Connecting then m.(objs := m.objs[o := m.objs[o].(status := Connected)]) else m
  }

  function StopError(m: Memory, name: string): Option<OpError>
    requires Sound(m)
  {
    if name !in m.index then Some(NotFound(name))
    else if !IsActive(m.objs[m.index[name]].status) then Some(NotRunning(name))
    else None
  }

  function Cancel(m: Memory, o: nat): Memory
    requires Sound(m) && o < |m.objs|
  {
    match m.objs[o].cancel
    case None => m
    case Some(c) => m.(cancelled := m.cancelled[c := true])
  }

  function Stop(m: Memory, name: string): Memory
    requires Sound(m)
  {
    if StopError(m, name) != None then m else Cancel(m, m.index[name])
  }

  /** Whether a successful `Stop` schedules a delayed delete. */
  predicate StopSchedulesDelete(m: Memory, name: string)
    requires Sound(m)
  {
    StopError(m, name) == None && m.objs[m.index[name]].ephemeral
  }

  /** The goroutine `Stop` leaves behind, which looks the tunnel up again by name. */
  function DelayedDelete(m: Memory, name: string): Memory
    requires Sound(m)
  {
    if name in m.index && !IsActive(m.objs[m.index[name]].status) then m.(index := m.index - {name}) else m
  }

  /** Some indexed tunnel would cancel context `c`. */
  predicate Cancellable(m: Memory, c: nat)
    requires Sound(m)
  {
    exists n | n in m.index :: m.objs[m.index[n]].cancel == Some(c)
  }

  function StopAll(m: Memory): Memory
    requires Sound(m)
  {
    m.(cancelled := seq(|m.cancelled|, c requires 0 <= c < |m.cancelled| => m.cancelled[c] || Cancellable(m, c)))
  }

  const NAME_ATTEMPTS: nat := 10

  /** The name the drawing loop of `Register` ends with. */
  function Draw(taken: set<string>, candidates: seq<string>): (name: string)
    requires candidates != []
    ensures name in candidates
    ensures name in taken <==> forall c | c in candidates :: c in taken
    decreases |candidates|
  {
    if candidates[0] !in taken || |candidates| == 1 then candidates[0] else Draw(taken, candidates[1..])
  }

  /** It is the first draw that is free, or the last one if none is. */
  lemma {:induction false} DrawIsFirstFree(taken: set<string>, candidates: seq<string>) returns (i: nat)
    requires candidates != []
    ensures i < |candidates| && Draw(taken, candidates) == candidates[i]
    ensures forall j | 0 <= j < i :: candidates[j] in taken
    ensures candidates[i] in taken ==> i == |candidates| - 1
    decreases |candidates|
  {
    if candidates[0] !in taken || |candidates| == 1 {
      i := 0;
    } else {
      i := DrawIsFirstFree(taken, candidates[1..]);
      i := i + 1;
    }
  }

  function Register(m: Memory, tc: TunnelConfig, candidates: seq<string>): (Memory, Option<string>)
    requires |candidates| == NAME_ATTEMPTS
  {
    var name := Draw(m.index.Keys, candidates);
    if name in m.index then (m, None)
    else (m.(objs := m.objs + [FreshTunnel(tc.(name := name), true)], index := m.index[name := |m.objs|]), Some(name))
  }

  function UnregisterError(m: Memory, name: string): Option<OpError>
    requires Sound(m)
  {
    if name !in m.index then Some(NotFound(name))
    else if !m.objs[m.index[name]].ephemeral then Some(NotEphemeral(name))
    else if IsActive(m.objs[m.index[name]].status) then Some(StillActive(name))
    else None
  }

  function Unregister(m: Memory, name: string): Memory
    requires Sound(m)
  {
    if UnregisterError(m, name) != None then m else m.(index := m.index - {name})
  }

  // -------------------------------------------------------------- queries

  const NOT_FOUND_TEXT := "tunnel not found"

  function StatusOf(m: Memory, name: string): (Status, string)
    requires Sound(m)
  {
    if name !in m.index then (Disconnected, NOT_FOUND_TEXT)
    else (m.objs[m.index[name]].status, m.objs[m.index[name]].error)
  }

  function ConfigOf(m: Memory, name: string): Option<TunnelConfig>
    requires Sound(m)
  {
    if name !in m.index then None else Some(m.objs[m.index[name]].config)
  }
}
