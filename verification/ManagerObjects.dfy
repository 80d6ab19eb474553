/**
 * The manager as the object graph the program builds (internal/tunnel/manager.go): a map of
 * pointers to tunnel objects, each pointing at the context it can cancel.  Every locked region
 * is a method, and each is proved to do to the objects what ManagerMemory says it does to values.
 */
module ManagerObjects {
  import opened Prelude
  import opened ManagerMemory
  import TunnelRun

  /** `m'` is `m` after the cancel functions of the entries in `names` were called. */
  ghost predicate CancelledThrough(m: Memory, names: set<string>, m': Memory)
    requires Sound(m)
  {
    && names <= m.index.Keys && m' == m.(cancelled := m'.cancelled) && |m'.cancelled| == |m.cancelled|
    && forall c | 0 <= c < |m.cancelled| ::
         m'.cancelled[c] <==> m.cancelled[c] || exists n | n in names :: m.objs[m.index[n]].cancel == Some(c)
  }

  lemma CancelOneMore(m: Memory, names: set<string>, m': Memory, n: string)
    requires Sound(m) && Sound(m') && CancelledThrough(m, names, m') && n in m.index
    ensures CancelledThrough(m, names + {n}, Cancel(m', m'.index[n]))
  {
  }

  lemma CancelledThroughAll(m: Memory, m': Memory)
    requires Sound(m) && CancelledThrough(m, m.index.Keys, m')
    ensures m' == StopAll(m)
  {
    assert m'.cancelled == StopAll(m).cancelled;
  }

  /** One more object, indexed under its own name. */
  ghost function WithTunnel(m: Memory, config: TunnelConfig, ephemeral: bool): Memory {
    m.(objs := m.objs + [FreshTunnel(config, ephemeral)], index := m.index[config.name := |m.objs|])
  }

  lemma NewMemoryGrows(cfg: seq<TunnelConfig>, i: nat)
    requires i < |cfg|
    ensures NewMemory(cfg[..i + 1]) == WithTunnel(NewMemory(cfg[..i]), cfg[i], false)
  {
    assert cfg[..i + 1][..i] == cfg[..i];
    assert NewMemory(cfg[..i + 1]).objs == WithTunnel(NewMemory(cfg[..i]), cfg[i], false).objs;
  }

  class Context {
    ghost const id: nat
    var cancelled: bool

    constructor (ghost id: nat)
      ensures this.id == id && !cancelled
    {
      this.id := id;
      cancelled := false;
    }
  }

  class ManagedTunnel {
    ghost const id: nat
    const config: TunnelConfig
    const ephemeral: bool
    var status: Status
    var error: string
    var cancel: Context?

    constructor (ghost id: nat, config: TunnelConfig, ephemeral: bool)
      ensures this.id == id && Record() == FreshTunnel(config, ephemeral)
      ensures this.config == config && this.ephemeral == ephemeral && status == Disconnected && error == "" && cancel == null
    {
      this.id := id;
      this.config := config;
      this.ephemeral := ephemeral;
      status, error, cancel := Disconnected, "", null;
    }

    ghost function Record(): Tunnel
      reads this
    {
      Tunnel(config, status, error, ephemeral, if cancel == null then None else Some(cancel.id))
    }
  }

  /** What `List` says about the tunnel called `n`. */
  ghost function Listed(m: Memory, n: string): Tunnel
    requires Sound(m) && n in m.index
  {
    m.objs[m.index[n]].(cancel := None)
  }

  /** `result` lists the tunnels called `keys`, none twice; the others are `left`. */
  ghost predicate Lists(m: Memory, keys: seq<string>, result: seq<Tunnel>, left: set<string>) {
    && Sound(m) && |keys| == |result|
    && (forall i | 0 <= i < |keys| :: keys[i] in m.index && result[i] == Listed(m, keys[i]))
    && (forall i, j | 0 <= i < j < |keys| :: keys[i] != keys[j])
    && left <= m.index.Keys && |result| + |left| == |m.index.Keys|
    && (forall n | n in m.index :: n in left <==> n !in keys)
  }

  lemma ListsOneMore(m: Memory, keys: seq<string>, result: seq<Tunnel>, left: set<string>, n: string)
    requires Lists(m, keys, result, left) && n in left
    ensures Lists(m, keys + [n], result + [Listed(m, n)], left - {n})
  {
  }

  lemma ListsAll(m: Memory, keys: seq<string>, result: seq<Tunnel>)
    requires Lists(m, keys, result, {})
    ensures |result| == |m.index|
    ensures forall t | t in result :: exists n | n in m.index :: t == m.objs[m.index[n]].(cancel := None)
    ensures forall n | n in m.index :: m.objs[m.index[n]].(cancel := None) in result
    ensures (forall n | n in m.index :: m.objs[m.index[n]].config.name == n) ==>
              forall i, j | 0 <= i < j < |result| :: result[i].config.name != result[j].config.name
  {
    forall t | t in result
      ensures exists n | n in m.index :: t == m.objs[m.index[n]].(cancel := None)
    {
      var i :| 0 <= i < |result| && result[i] == t;
      assert t == Listed(m, keys[i]);
    }
    forall n | n in m.index
      ensures m.objs[m.index[n]].(cancel := None) in result
    {
      var i :| 0 <= i < |keys| && keys[i] == n;
      assert result[i] == Listed(m, n);
    }
  }

  class Manager {
    var tunnels: map<string, ManagedTunnel>
    var onChange: bool
    // every tunnel object and context ever made, and the abstract memory they represent
    ghost var objects: seq<ManagedTunnel>
    ghost var contexts: seq<Context>
    ghost var mem: Memory

    ghost predicate ObjectsValid()
      reads this, objects
    {
      && |mem.objs| == |objects|
      && (forall i | 0 <= i < |objects| :: objects[i].id == i && mem.objs[i] == objects[i].Record())
      && (forall i | 0 <= i < |objects| && objects[i].cancel != null ::
            var c := objects[i].cancel; c.id < |contexts| && contexts[c.id] == c)
    }

    ghost predicate ContextsValid()
      reads this, contexts
    {
      && |mem.cancelled| == |contexts|
      && (forall c | 0 <= c < |contexts| :: contexts[c].id == c && mem.cancelled[c] == contexts[c].cancelled)
    }

    ghost predicate IndexValid()
      reads this
    {
      && mem.index.Keys == tunnels.Keys
      && (forall n | n in tunnels :: mem.index[n] < |objects| && objects[mem.index[n]] == tunnels[n])
    }

    ghost predicate Valid()
      reads this, objects, contexts
    {
      ObjectsValid() && ContextsValid() && IndexValid() && mem.onChange == onChange
    }

    lemma ValidIsSound()
      requires Valid()
      ensures Sound(mem)
    {
    }

    /** `NewManager`. */
    constructor (cfg: seq<TunnelConfig>)
      ensures Valid() && mem == NewMemory(cfg)
      ensures fresh(objects) && contexts == []
    {
      tunnels, onChange := map[], false;
      objects, contexts, mem := [], [], NewMemory([]);
      new;
      for i := 0 to |cfg|
        invariant Valid() && fresh(objects) && contexts == []
        invariant mem == NewMemory(cfg[..i])
      {
        NewMemoryGrows(cfg, i);
        Add(cfg[i], false);
      }
      assert cfg[..|cfg|] == cfg;
    }

    /** A new tunnel object enters the map under its own name. */
    method Add(config: TunnelConfig, ephemeral: bool)
      requires Valid()
      modifies this
      ensures Valid() && contexts == old(contexts) && mem == WithTunnel(old(mem), config, ephemeral)
      ensures |objects| == |old(objects)| + 1 && objects[..|old(objects)|] == old(objects) && fresh(objects[|old(objects)|])
      ensures config.name in tunnels && tunnels[config.name].config == config
    {
      var mt := new ManagedTunnel(|objects|, config, ephemeral);
      tunnels := tunnels[config.name := mt];
      objects := objects + [mt];
      mem := WithTunnel(mem, config, ephemeral);
    }

    /** First locked region of `Start`. */
    method BeginStart(name: string) returns (error: Option<OpError>, mt: ManagedTunnel?, ctx: Context?, hook: bool)
      requires Valid()
      modifies this, objects
      ensures Valid() && Sound(old(mem)) && objects == old(objects) && hook == onChange
      ensures error == StartError(old(mem), name)
      ensures error.Some? ==> mem == old(mem) && contexts == old(contexts)
      ensures error == None ==>
                && mem == Begin(old(mem), name)
                && mt != null && mt == objects[mem.index[name]]
                && ctx != null && fresh(ctx) && contexts == old(contexts) + [ctx] && !ctx.cancelled
                && mt.status == Connecting && mt.error == "" && mt.cancel == ctx
    {
      ValidIsSound();
      error, mt, ctx, hook := None, null, null, onChange;
      if name !in tunnels {
        error := Some(NotFound(name));
        return;
      }
      var found := tunnels[name];
      if IsActive(found.status) {
        error := Some(AlreadyActive(name, found.status));
        return;
      }
      mt, ctx := Connect(name);
    }

    /** What the first region does once nothing stands in its way. */
    method Connect(name: string) returns (mt: ManagedTunnel, ctx: Context)
      requires Valid() && Sound(mem) && StartError(mem, name) == None
      modifies this, objects
      ensures Valid() && objects == old(objects) && onChange == old(onChange)
      ensures mem == Begin(old(mem), name) && mt == objects[mem.index[name]]
      ensures fresh(ctx) && contexts == old(contexts) + [ctx] && !ctx.cancelled
      ensures mt.status == Connecting && mt.error == "" && mt.cancel == ctx
    {
      mt := tunnels[name];
      ctx := NewContext();
      Mark(mt, ctx);
    }

    /** `context.WithCancel`. */
    method NewContext() returns (ctx: Context)
      requires Valid()
      modifies this
      ensures Valid() && fresh(ctx) && contexts == old(contexts) + [ctx] && ctx.id == |old(mem).cancelled|
      ensures !ctx.cancelled && objects == old(objects) && tunnels == old(tunnels) && onChange == old(onChange)
      ensures mem == old(mem).(cancelled := old(mem).cancelled + [false])
    {
      ctx := new Context(|contexts|);
      contexts := contexts + [ctx];
      mem := mem.(cancelled := mem.cancelled + [false]);
    }

    method Mark(mt: ManagedTunnel, ctx: Context)
      requires Valid() && mt in objects && ctx in contexts
      modifies this`mem, mt
      ensures Valid() && mt.id < |objects|
      ensures mem == old(mem).(objs := old(mem).objs[mt.id := old(mem).objs[mt.id].(status := Connecting, error := "", cancel := Some(ctx.id))])
      ensures mt.status == Connecting && mt.error == "" && mt.cancel == ctx
    {
      mt.status, mt.error, mt.cancel := Connecting, "", ctx;
      mem := mem.(objs := mem.objs[mt.id := mt.Record()]);
    }

    /** The worker's locked region, on the object it captured, which may have left the map. */
    method FinishWorker(mt: ManagedTunnel, outcome: TunnelRun.Outcome) returns (status: Status, text: string, hook: bool)
      requires Valid() && mt in objects
      modifies this, mt
      ensures Valid() && mt.id < |objects| && objects == old(objects) && contexts == old(contexts)
      ensures mem == Finish(old(mem), mt.id, outcome)
      ensures status == mt.status && text == mt.error && hook == onChange && mt.cancel == null
      ensures match outcome
              case Failed(reason) => mt.status == Error && mt.error == reason
              case Closed => mt.status == Disconnected && mt.error == ""
    {
      match outcome {
        case Failed(reason) => mt.status, mt.error := Error, reason;
        case Closed => mt.status, mt.error := Disconnected, "";
      }
      mt.cancel := null;
      status, text, hook := mt.status, mt.error, onChange;
      mem := Finish(mem, mt.id, outcome);
    }

    /** Last locked region of `Start`, on the object it captured. */
    method PromoteStart(mt: ManagedTunnel) returns (promoted: bool, hook: bool)
      requires Valid() && mt in objects
      modifies this, mt
      ensures Valid() && mt.id < |objects| && objects == old(objects) && contexts == old(contexts)
      ensures mem == Promote(old(mem), mt.id)
      ensures promoted <==> old(mt.status) == Connecting
      ensures mt.status == if promoted then Connected else old(mt.status)
      ensures hook == onChange
    {
      promoted, hook := mt.status == Connecting, onChange;
      if promoted {
        mt.status := Connected;
      }
      mem := Promote(mem, mt.id);
    }

    /** `Stop`; `schedules` tells whether it leaves a delayed delete behind. */
    method StopTunnel(name: string) returns (error: Option<OpError>, schedules: bool)
      requires Valid()
      modifies this, contexts
      ensures Valid() && Sound(old(mem)) && objects == old(objects) && contexts == old(contexts)
      ensures mem == Stop(old(mem), name) && error == StopError(old(mem), name)
      ensures schedules <==> StopSchedulesDelete(old(mem), name)
    {
      ValidIsSound();
      error, schedules := None, false;
      if name !in tunnels {
        error := Some(NotFound(name));
        return;
      }
      var mt := tunnels[name];
      if !IsActive(mt.status) {
        error := Some(NotRunning(name));
        return;
      }
      schedules := mt.ephemeral;
      CancelEntry(name);
    }

    /** What the cancel function of an indexed tunnel touches. */
    ghost function CancelTarget(name: string): set<Context>
      requires name in tunnels
      reads this, tunnels[name]
    {
      if tunnels[name].cancel == null then {} else {tunnels[name].cancel}
    }

    /** Call the cancel function of an indexed tunnel, if it has one. */
    method CancelEntry(name: string)
      requires Valid() && Sound(mem) && name in tunnels
      modifies this`mem, CancelTarget(name)
      ensures Valid() && mem == Cancel(old(mem), old(mem).index[name])
    {
      var mt := tunnels[name];
      if mt.cancel != null {
        mt.cancel.cancelled := true;
      }
      mem := Cancel(mem, mem.index[name]);
    }

    /** The delayed delete. */
    method DeleteIfIdle(name: string)
      requires Valid()
      modifies this
      ensures Valid() && Sound(old(mem)) && objects == old(objects) && contexts == old(contexts)
      ensures mem == DelayedDelete(old(mem), name)
    {
      ValidIsSound();
      if name in tunnels && !IsActive(tunnels[name].status) {
        tunnels := tunnels - {name};
      }
      mem := DelayedDelete(mem, name);
    }

    /** `Unregister`. */
    method UnregisterTunnel(name: string) returns (error: Option<OpError>)
      requires Valid()
      modifies this
      ensures Valid() && Sound(old(mem)) && objects == old(objects) && contexts == old(contexts)
      ensures mem == Unregister(old(mem), name) && error == UnregisterError(old(mem), name)
    {
      ValidIsSound();
      error := None;
      if name !in tunnels {
        error := Some(NotFound(name));
      } else if !tunnels[name].ephemeral {
        error := Some(NotEphemeral(name));
      } else if IsActive(tunnels[name].status) {
        error := Some(StillActive(name));
      } else {
        tunnels := tunnels - {name};
      }
      mem := Unregister(mem, name);
    }

    /** One round of the loop in `StopAll`. */
    method CancelAnother(ghost m: Memory, ghost names: set<string>, n: string)
      requires Valid() && Sound(m) && Sound(mem) && CancelledThrough(m, names, mem) && n in tunnels
      modifies this`mem, contexts
      ensures Valid() && Sound(mem) && CancelledThrough(m, names + {n}, mem)
    {
      CancelOneMore(m, names, mem, n);
      CancelEntry(n);
    }

    /** `StopAll`: cancel whatever any entry of the map can cancel. */
    method StopEverything()
      requires Valid()
      modifies this`mem, contexts
      ensures Valid() && Sound(old(mem))
      ensures mem == StopAll(old(mem))
    {
      ValidIsSound();
      ghost var m := mem;
      var left := tunnels.Keys;
      while left != {}
        invariant left <= tunnels.Keys && Valid() && Sound(mem)
        invariant CancelledThrough(m, tunnels.Keys - left, mem)
        decreases left
      {
        var n :| n in left;
        CancelAnother(m, tunnels.Keys - left, n);
        assert tunnels.Keys - (left - {n}) == (tunnels.Keys - left) + {n};
        left := left - {n};
      }
      assert tunnels.Keys - left == m.index.Keys;
      CancelledThroughAll(m, mem);
    }

    /** The drawing loop of `Register`. */
    method DrawName(candidates: seq<string>) returns (drawn: string)
      requires |candidates| == NAME_ATTEMPTS
      ensures drawn == Draw(tunnels.Keys, candidates)
    {
      var i := 0;
      drawn := "";
      while i < NAME_ATTEMPTS
        invariant 0 <= i <= NAME_ATTEMPTS
        invariant i > 0 ==> drawn == candidates[i - 1]
        invariant i > 0 ==> drawn in tunnels
        invariant i < NAME_ATTEMPTS ==> Draw(tunnels.Keys, candidates) == Draw(tunnels.Keys, candidates[i..])
        invariant i == NAME_ATTEMPTS ==> drawn == Draw(tunnels.Keys, candidates)
      {
        drawn := candidates[i];
        if drawn !in tunnels {
          break;
        }
        i := i + 1;
      }
    }

    /** `Register`: a fresh ephemeral tunnel under a drawn name, unless every draw was taken. */
    method RegisterTunnel(tc: TunnelConfig, candidates: seq<string>) returns (name: Option<string>)
      requires Valid() && |candidates| == NAME_ATTEMPTS
      modifies this
      ensures Valid() && contexts == old(contexts)
      ensures (mem, name) == Register(old(mem), tc, candidates)
      ensures name == None ==> objects == old(objects)
      ensures name.Some? ==> |objects| == |old(objects)| + 1 && objects[..|old(objects)|] == old(objects)
                             && fresh(objects[|old(objects)|])
      ensures name.Some? ==> name.value in tunnels
                             && tunnels[name.value].config.name == name.value && tunnels[name.value].config.host == tc.host
                             && tunnels[name.value].config.remote == tc.remote && tunnels[name.value].config.local == tc.local
    {
      var drawn := DrawName(candidates);
      if drawn in tunnels {
        name := None;
      } else {
        Add(tc.(name := drawn), true);
        name := Some(drawn);
      }
    }

    /** `SetOnChange`. */
    method SetOnChange(installed: bool)
      requires Valid()
      modifies this
      ensures Valid() && objects == old(objects) && contexts == old(contexts)
      ensures mem == old(mem).(onChange := installed)
    {
      onChange := installed;
      mem := mem.(onChange := installed);
    }

    /** `Status`. */
    method GetStatus(name: string) returns (status: Status, text: string)
      requires Valid()
      ensures Sound(mem) && (status, text) == StatusOf(mem, name)
      ensures name !in tunnels ==> status == Disconnected && text == "tunnel not found"
      ensures name in tunnels ==> status == tunnels[name].status && text == tunnels[name].error
    {
      ValidIsSound();
      if name !in tunnels {
        return Disconnected, NOT_FOUND_TEXT;
      }
      return tunnels[name].status, tunnels[name].error;
    }

    /** `GetConfig`. */
    method GetConfig(name: string) returns (config: Option<TunnelConfig>)
      requires Valid()
      ensures Sound(mem) && config == ConfigOf(mem, name)
      ensures config == if name in tunnels then Some(tunnels[name].config) else None
    {
      ValidIsSound();
      config := if name in tunnels then Some(tunnels[name].config) else None;
    }

    /** The loop of `List`, in the order in which the map gives its keys. */
    method Collect() returns (result: seq<Tunnel>, ghost keys: seq<string>)
      requires Valid()
      ensures Lists(mem, keys, result, {})
    {
      result, keys := [], [];
      ValidIsSound();
      var left := tunnels.Keys;
      while left != {}
        invariant Lists(mem, keys, result, left)
        decreases |left|
      {
        var n :| n in left;
        var mt := tunnels[n];
        ListsOneMore(mem, keys, result, left, n);
        keys, left := keys + [n], left - {n};
        result := result + [Tunnel(mt.config, mt.status, mt.error, mt.ephemeral, None)];
      }
    }

    /**
     * `List`: one entry per indexed tunnel, without its cancel function, in any order; with every
     * tunnel under its own name, as `EntriesHaveDistinctNames` guarantees, no name comes twice.
     */
    method List() returns (result: seq<Tunnel>)
      requires Valid()
      ensures Sound(mem) && |result| == |mem.index|
      ensures forall t | t in result :: exists n | n in mem.index :: t == mem.objs[mem.index[n]].(cancel := None)
      ensures forall n | n in mem.index :: mem.objs[mem.index[n]].(cancel := None) in result
      ensures (forall n | n in mem.index :: mem.objs[mem.index[n]].config.name == n) ==>
                forall i, j | 0 <= i < j < |result| :: result[i].config.name != result[j].config.name
    {
      ghost var keys;
      result, keys := Collect();
      ListsAll(mem, keys, result);
    }
  }
}
