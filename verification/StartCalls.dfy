/**
 * The start handler (internal/daemon/handlers.go) together with the manager: it looks the tunnel up,
 * parses the host it found, and calls `Start` in a later region.
 */
module StartCalls {
  import opened Prelude
  import opened ManagerMemory
  import opened ManagerMachine
  import opened ManagerTheorems
  import opened ManagerLifecycle
  import opened ManagerReports
  import Config
  import Hosts
  import Handlers
  import TunnelRun

  /** The configuration a lookup of `name` finds. */
  ghost predicate Finds(s: Machine, name: string, config: TunnelConfig) {
    name in s.mem.index && s.mem.index[name] < |s.mem.objs| && s.mem.objs[s.mem.index[name]].config == config
  }

  /** The handler looked `name` up at `j`, finding `looked`; its `Start` call at `k` succeeds, finding `found`. */
  ghost predicate HandlerStarts(states: seq<Machine>, steps: seq<Step>, j: nat, k: nat, name: string,
                                resolve: string -> Hosts.Resolved, looked: TunnelConfig, found: TunnelConfig) {
    && j <= k < |steps| < |states| && Finds(states[j], name, looked) && Finds(states[k], name, found)
    && !IsActive(states[k].mem.objs[states[k].mem.index[name]].status)
    && steps[k] == StartBegins(name, Hosts.DaemonParse(looked.host, resolve).0, Hosts.DaemonParse(looked.host, resolve).1)
  }

  lemma {:induction false} StaysBegun(cfg: seq<TunnelConfig>, states: seq<Machine>, steps: seq<Step>, k: nat, l: nat, r: nat)
    requires Execution(cfg, states, steps) && k < l < |states| && |states[k].runs| == r < |states[k + 1].runs|
    ensures r < |states[l].runs| && BegunBy(states[k], steps[k], states[l].runs[r])
    decreases l
  {
    if k + 1 == l {
      NewRunIsBegun(states[k], steps[k], r);
    } else {
      StaysBegun(cfg, states, steps, k, l - 1, r);
      OriginStays(states[l - 1], steps[l - 1], r);
    }
  }

  lemma BeginsARun(s: Machine, step: Step)
    requires Shape(s) && step.StartBegins? && StartError(s.mem, step.name) == None
    ensures |Apply(s, step).runs| == |s.runs| + 1
  {
  }

  /**
   * The run of a start request dials the host the handler looked up and forwards between the
   * addresses of the tunnel that `Start` found.  The two are one tunnel's as long as its entry was
   * not replaced in between, which never happens to a configured tunnel.
   */
  lemma StartServesTheTunnelLookedUp(cfg: seq<TunnelConfig>, states: seq<Machine>, steps: seq<Step>, j: nat, k: nat, l: nat,
                                     name: string, resolve: string -> Hosts.Resolved, looked: TunnelConfig, found: TunnelConfig)
    requires Execution(cfg, states, steps) && HandlerStarts(states, steps, j, k, name, resolve, looked, found) && k < l < |states|
    ensures |states[k].runs| < |states[l].runs|
    ensures var run, (addr, user) := states[l].runs[|states[k].runs|], Hosts.DaemonParse(looked.host, resolve);
            && run.name == name && run.tunnel.target.sshHost == addr && run.tunnel.target.sshUser == user
            && run.tunnel.target.remoteAddr == found.remote && run.tunnel.target.localAddr == found.local
    ensures states[j].mem.index[name] == states[k].mem.index[name] ==> found == looked
    ensures IsConfigured(cfg, name) ==> found == looked
  {
    Handlers.SoundAt(cfg, states, steps, k);
    BeginsARun(states[k], steps[k]);
    StaysBegun(cfg, states, steps, k, l, |states[k].runs|);
    IdentityForGood(cfg, states, steps, j, k, states[j].mem.index[name]);
    if IsConfigured(cfg, name) {
      ConfiguredLookup(cfg, states, steps, j, name);
      ConfiguredLookup(cfg, states, steps, k, name);
    }
  }

  lemma ConfiguredLookup(cfg: seq<TunnelConfig>, states: seq<Machine>, steps: seq<Step>, k: nat, name: string)
    requires Execution(cfg, states, steps) && k < |states| && IsConfigured(cfg, name)
    ensures name in states[k].mem.index && name in LastEntry(cfg) && states[k].mem.index[name] == LastEntry(cfg)[name]
  {
    var i :| 0 <= i < |cfg| && cfg[i].name == name;
    LastEntryIsLast(cfg);
    Safety(cfg, states, steps, k);
  }

  // -------------------------------------------------------------- an entry that was replaced

  /** Without its tunnel having been configured, a name can come to stand for another tunnel between lookup and start. */
  lemma StartCanMixTunnels(name: string, first: TunnelConfig, second: TunnelConfig, resolve: string -> Hosts.Resolved)
    returns (states: seq<Machine>, steps: seq<Step>)
    ensures Execution([], states, steps) && |steps| == 4
    ensures HandlerStarts(states, steps, 1, 3, name, resolve, first.(name := name), second.(name := name))
  {
    states, steps := Handlers.Registered(name, first);
    states, steps := Extend([], states, steps, UnregisterCalled(name));
    states, steps := Replaced(states, steps, name, second);
    var (addr, user) := Hosts.DaemonParse(first.host, resolve);
    Handlers.ShapeAt([], states, steps, 3);
    states, steps := Extend([], states, steps, StartBegins(name, addr, user));
  }

  lemma Replaced(states: seq<Machine>, steps: seq<Step>, name: string, config: TunnelConfig)
    returns (states': seq<Machine>, steps': seq<Step>)
    requires Execution([], states, steps) && |steps| == 2 && name !in states[2].mem.index
    ensures Execution([], states', steps') && |steps'| == 3 && steps' == steps + [steps'[2]] && states'[..3] == states
    ensures Finds(states'[3], name, config.(name := name))
    ensures !IsActive(states'[3].mem.objs[states'[3].mem.index[name]].status)
  {
    Handlers.ShapeAt([], states, steps, 2);
    states', steps' := Extend([], states, steps, RegisterCalled(config, seq(NAME_ATTEMPTS, i => name)));
  }
}
