/** Tunnel names in the configuration (internal/config/config.go). */
module Config {
  import opened Prelude
  import opened Text

  datatype TunnelConfig = TunnelConfig(name: string, host: string, remote: string, local: string)

  // -------------------------------------------------------------- naming

  function DeriveName(host: string): string {
    var at := Index(host, '@');
    if at != -1 then host[at + 1..] else host
  }

  /** First loop of `Load`: a tunnel without a name takes it from its host. */
  function Named(tc: TunnelConfig): TunnelConfig {
    if tc.name == "" && tc.host != "" then tc.(name := DeriveName(tc.host)) else tc
  }

  function Has(name: string): TunnelConfig -> nat {
    (tc: TunnelConfig) => if tc.name == name then 1 else 0
  }

  /** How many entries up to and including `i` share the name of entry `i`. */
  ghost function Rank(ts: seq<TunnelConfig>, i: nat): nat
    requires i < |ts|
  {
    Sum(ts[..i + 1], Has(ts[i].name))
  }

  function Numbered(name: string, k: nat): string {
    name + "-" + Decimal(k)
  }

  /** The k-th entry of a name keeps it for k = 1 and is numbered otherwise. */
  ghost function FinalName(ts: seq<TunnelConfig>, i: nat): string
    requires i < |ts|
  {
    if Rank(ts, i) == 1 then ts[i].name else Numbered(ts[i].name, Rank(ts, i))
  }

  lemma RankUnfolds(ts: seq<TunnelConfig>, i: nat)
    requires i < |ts|
    ensures Rank(ts, i) == Sum(ts[..i], Has(ts[i].name)) + 1
  {
    assert ts[..i + 1] == ts[..i] + [ts[i]];
    SumAppend(ts[..i], ts[i], Has(ts[i].name));
  }

  /** `name` is the host without its user: everything after the first at sign, or all of it. */
  ghost predicate IsHostPart(name: string, host: string) {
    if '@' !in host then name == host else exists user: string :: '@' !in user && host == user + "@" + name
  }

  lemma DeriveNameIsHostPart(host: string)
    ensures IsHostPart(DeriveName(host), host)
  {
    var at := Index(host, '@');
    if at != -1 {
      assert host == host[..at] + "@" + host[at + 1..];
    }
  }

  /** What the first loop of `Load` may do to one entry. */
  ghost predicate IsNamedFrom(after: TunnelConfig, before: TunnelConfig) {
    && after.host == before.host && after.remote == before.remote && after.local == before.local
    && if before.name != "" || before.host == "" then after.name == before.name else IsHostPart(after.name, before.host)
  }

  lemma NamedIsNamedFrom(tc: TunnelConfig)
    ensures IsNamedFrom(Named(tc), tc)
  {
    DeriveNameIsHostPart(tc.host);
  }

  /** First loop of `Load` over `cfg.Tunnels`, in place: a missing name, and nothing else, is taken from the host. */
  method DeriveNames(tunnels: array<TunnelConfig>)
    modifies tunnels
    ensures forall i | 0 <= i < tunnels.Length :: tunnels[i] == old(Named(tunnels[i]))
    ensures forall i | 0 <= i < tunnels.Length :: IsNamedFrom(tunnels[i], old(tunnels[i]))
  {
    ghost var before := tunnels[..];
    for i := 0 to tunnels.Length
      invariant forall j | 0 <= j < i :: tunnels[j] == old(Named(tunnels[j]))
      invariant forall j | i <= j < tunnels.Length :: tunnels[j] == old(tunnels[j])
    {
      if tunnels[i].name == "" && tunnels[i].host != "" {
        tunnels[i] := tunnels[i].(name := DeriveName(tunnels[i].host));
      }
    }
    forall i | 0 <= i < tunnels.Length
      ensures IsNamedFrom(tunnels[i], before[i])
    {
      NamedIsNamedFrom(before[i]);
    }
  }

  /** `nameCounts` holds, for each name seen so far, how often it was seen. */
  ghost predicate Counts(nameCounts: map<string, nat>, seen: seq<TunnelConfig>) {
    forall n: string ::
      && (n in nameCounts ==> nameCounts[n] > 0)
      && Sum(seen, Has(n)) == if n in nameCounts then nameCounts[n] else 0
  }

  lemma CountsAppend(nameCounts: map<string, nat>, seen: seq<TunnelConfig>, tc: TunnelConfig)
    requires Counts(nameCounts, seen)
    ensures Counts(nameCounts[tc.name := if tc.name in nameCounts then nameCounts[tc.name] + 1 else 1], seen + [tc])
  {
    forall n: string
      ensures Sum(seen + [tc], Has(n)) == Sum(seen, Has(n)) + Has(n)(tc)
    {
      SumAppend(seen, tc, Has(n));
    }
  }

  /** Second loop of `Load`, in place: number repeated names. */
  method NumberNames(tunnels: array<TunnelConfig>)
    modifies tunnels
    ensures forall i | 0 <= i < tunnels.Length ::
              tunnels[i] == old(tunnels[i]).(name := FinalName(old(tunnels[..]), i))
  {
    ghost var ts := tunnels[..];
    var nameCounts: map<string, nat> := map[];
    for i := 0 to tunnels.Length
      invariant forall j | 0 <= j < i :: tunnels[j] == ts[j].(name := FinalName(ts, j))
      invariant forall j | i <= j < tunnels.Length :: tunnels[j] == ts[j]
      invariant Counts(nameCounts, ts[..i])
    {
      var name := tunnels[i].name;
      RankUnfolds(ts, i);
      CountsAppend(nameCounts, ts[..i], ts[i]);
      assert ts[..i + 1] == ts[..i] + [ts[i]];
      if name in nameCounts {
        tunnels[i] := tunnels[i].(name := name + "-" + Decimal(nameCounts[name] + 1));
        nameCounts := nameCounts[name := nameCounts[name] + 1];
      } else {
        nameCounts := nameCounts[name := 1];
      }
    }
  }

  // -------------------------------------------------------------- distinctness

  ghost predicate Distinct(ts: seq<TunnelConfig>) {
    forall i, j | 0 <= i < j < |ts| :: FinalName(ts, i) != FinalName(ts, j)
  }

  /** Some original name equals a name the numbering generates. */
  ghost predicate Collides(ts: seq<TunnelConfig>) {
    exists i, j | 0 <= i < |ts| && 0 <= j < |ts| :: Rank(ts, j) > 1 && ts[i].name == FinalName(ts, j)
  }

  lemma {:induction false} SumMonotone(ts: seq<TunnelConfig>, i: nat, j: nat, n: string)
    requires i <= j <= |ts|
    ensures Sum(ts[..i], Has(n)) <= Sum(ts[..j], Has(n))
    decreases j
  {
    if i < j {
      assert ts[..j] == ts[..j - 1] + [ts[j - 1]];
      SumAppend(ts[..j - 1], ts[j - 1], Has(n));
      SumMonotone(ts, i, j - 1, n);
    }
  }

  lemma RankIncreases(ts: seq<TunnelConfig>, i: nat, j: nat)
    requires i < j < |ts| && ts[i].name == ts[j].name
    ensures Rank(ts, i) < Rank(ts, j)
  {
    RankUnfolds(ts, j);
    SumMonotone(ts, i + 1, j, ts[i].name);
  }

  lemma {:induction false} FirstOfName(ts: seq<TunnelConfig>, i: nat) returns (f: nat)
    requires i < |ts|
    ensures f <= i && ts[f].name == ts[i].name && Rank(ts, f) == 1
    decreases i
  {
    RankUnfolds(ts, i);
    if Rank(ts, i) == 1 {
      f := i;
    } else {
      var k := SumWitness(ts[..i], Has(ts[i].name));
      f := FirstOfName(ts, k);
    }
  }

  lemma NumberedInjective(m: string, n: string, j: nat, k: nat)
    requires Numbered(m, j) == Numbered(n, k)
    ensures m == n && j == k
  {
    DashSplitsUniquely(m, n, Decimal(j), Decimal(k));
    DecimalInjective(j, k);
  }

  /** The final names are pairwise distinct exactly when no original name is also a generated one. */
  lemma NamesDistinctExactly(ts: seq<TunnelConfig>)
    ensures Distinct(ts) <==> !Collides(ts)
  {
    if Collides(ts) {
      var i, j :| 0 <= i < |ts| && 0 <= j < |ts| && Rank(ts, j) > 1 && ts[i].name == FinalName(ts, j);
      var f := FirstOfName(ts, i);
      assert FinalName(ts, f) == FinalName(ts, j) && f != j;
    } else {
      forall i, j | 0 <= i < j < |ts|
        ensures FinalName(ts, i) != FinalName(ts, j)
      {
        DistinctPair(ts, i, j);
      }
    }
  }

  lemma DistinctPair(ts: seq<TunnelConfig>, i: nat, j: nat)
    requires i < j < |ts| && !Collides(ts)
    ensures FinalName(ts, i) != FinalName(ts, j)
  {
    RankUnfolds(ts, i);
    RankUnfolds(ts, j);
    if ts[i].name == ts[j].name {
      RankIncreases(ts, i, j);
    }
    if Rank(ts, i) > 1 && Rank(ts, j) > 1 && FinalName(ts, i) == FinalName(ts, j) {
      NumberedInjective(ts[i].name, ts[j].name, Rank(ts, i), Rank(ts, j));
    }
  }

  /** Tunnels called a, a and a-2 come out as a, a-2 and a-2. */
  lemma CollisionNames(x: string, y: string, z: string)
    ensures var ts := [TunnelConfig("a", x, "r", "l"), TunnelConfig("a", y, "r", "l"), TunnelConfig("a-2", z, "r", "l")];
            FinalName(ts, 0) == "a" && FinalName(ts, 1) == "a-2" && FinalName(ts, 2) == "a-2"
  {
    var t, u, v := TunnelConfig("a", x, "r", "l"), TunnelConfig("a", y, "r", "l"), TunnelConfig("a-2", z, "r", "l");
    var ts := [t, u, v];
    RankUnfolds(ts, 0);
    RankUnfolds(ts, 1);
    assert ts[..1] == [] + [t];
    SumAppend([], t, Has("a"));
    assert Decimal(2) == "2";
    RankUnfolds(ts, 2);
    assert ts[..2] == [t] + [u];
    SumAppend([t], u, Has("a-2"));
    SumAppend([], t, Has("a-2"));
  }

  /** The collision is real: three entries of which two end up with one name. */
  lemma CollisionExample()
    ensures var ts := [TunnelConfig("a", "h", "r", "l"), TunnelConfig("a", "h", "r", "l"), TunnelConfig("a-2", "h", "r", "l")];
            Collides(ts) && FinalName(ts, 1) == FinalName(ts, 2)
  {
    var ts := [TunnelConfig("a", "h", "r", "l"), TunnelConfig("a", "h", "r", "l"), TunnelConfig("a-2", "h", "r", "l")];
    CollisionNames("h", "h", "h");
    RankUnfolds(ts, 1);
    assert ts[..1] == [] + [ts[0]];
    SumAppend([], ts[0], Has("a"));
    assert Rank(ts, 1) > 1 && ts[2].name == FinalName(ts, 1);
  }

  // -------------------------------------------------------------- lookup

  /** Position of the first entry called `name`. */
  ghost predicate IsFirst(ts: seq<TunnelConfig>, name: string, i: nat) {
    i < |ts| && ts[i].name == name && forall j | 0 <= j < i :: ts[j].name != name
  }

  /** `GetTunnelByName`: a linear scan. */
  method GetTunnelByName(ts: seq<TunnelConfig>, name: string) returns (found: Option<TunnelConfig>)
    ensures found == None ==> forall j | 0 <= j < |ts| :: ts[j].name != name
    ensures found.Some? ==> exists i: nat :: IsFirst(ts, name, i) && found.value == ts[i]
  {
    for i := 0 to |ts|
      invariant forall j | 0 <= j < i :: ts[j].name != name
    {
      if ts[i].name == name {
        assert IsFirst(ts, name, i);
        return Some(ts[i]);
      }
    }
    return None;
  }
}
