/** Choosing a node: the health ticks drive one breaker per node, and the choices
    never return a node whose breaker is open. */
module Routing {
  import opened Wrappers
  import opened CircuitBreaker
  import opened Sequences

  datatype Role = Primary | SyncReplica | AsyncReplica | Analytics | Archive | Maintenance

  predicate IsReplica(r: Role) { r == SyncReplica || r == AsyncReplica || r == Analytics }

  predicate IsUsable(r: Role) { r != Archive && r != Maintenance }

  datatype Stats = Stats(healthy: bool, isPrimary: bool, rtt: int, replayLag: int, lsnLag: nat)

  datatype Node = Node(name: string, role: Role, weight: int, pool: bool, stats: Stats, breaker: Breaker)

  datatype Health = Health(lagThreshold: int, delays: Delays, autoDetect: bool)

  /** What one check of a node finds. */
  datatype Probe = Probe(poolMade: bool, ok: bool, leads: bool, rtt: int, lag: int, lsnLag: nat, now: int)

  predicate Healthy(n: Node, p: Probe, cfg: Health) {
    var isPrimary := if p.ok && cfg.autoDetect then p.leads else n.role == Primary;
    && (n.pool || p.poolMade) && p.ok
    && (isPrimary || p.lag <= cfg.lagThreshold)
    && (cfg.autoDetect || n.role != Primary || p.lag <= 0)
  }

  function Checked(n: Node, p: Probe, cfg: Health): Node {
    var b := Applied(n.breaker, Tick(p.now, Healthy(n, p, cfg)), cfg.delays);
    if !IsUsable(n.role) then n
    else if !n.pool && !p.poolMade then n.(stats := n.stats.(healthy := false), breaker := b)
    else
      var isPrimary := if p.ok && cfg.autoDetect then p.leads else n.role == Primary;
      n.(pool := true, breaker := b, stats := Stats(Healthy(n, p, cfg), isPrimary, p.rtt, p.lag, p.lsnLag))
  }

  /** When a check leaves a node healthy: it has a pool and answered, and unless it leads its
      lag is within the threshold; without detection a primary must not lag at all. */
  lemma HealthyIff(n: Node, p: Probe, cfg: Health)
    ensures Healthy(n, p, cfg)
            <==> && (n.pool || p.poolMade) && p.ok
                 && if cfg.autoDetect then p.leads || p.lag <= cfg.lagThreshold
                    else if n.role == Primary then p.lag <= 0
                    else p.lag <= cfg.lagThreshold
  {}

  /** What a check leaves: the probe's own figures, the role it found, and the breaker moved
      by its verdict. A node that is not to be used is not touched, and one whose pool
      cannot be made keeps its figures. */
  lemma CheckLeaves(n: Node, p: Probe, cfg: Health)
    ensures var m := Checked(n, p, cfg);
            && m.name == n.name && m.role == n.role && m.weight == n.weight
            && (n.role in {Archive, Maintenance} ==> m == n)
            && (n.role !in {Archive, Maintenance} ==>
                  && m.stats.healthy == Healthy(n, p, cfg)
                  && (!Healthy(n, p, cfg) ==> m.breaker.status == Open)
                  && (Healthy(n, p, cfg) && p.now < n.breaker.until ==> m.breaker == n.breaker)
                  && m.pool == (n.pool || p.poolMade)
                  && (m.pool ==> && m.stats.rtt == p.rtt && m.stats.replayLag == p.lag && m.stats.lsnLag == p.lsnLag
                                 && m.stats.isPrimary == (if p.ok && cfg.autoDetect then p.leads else n.role == Primary))
                  && (!m.pool ==> m.stats == n.stats.(healthy := false)))
  {}

  // ---------- choices ----------

  predicate Admitted(n: Node) { IsUsable(n.role) && n.breaker.status != Open && n.pool }

  datatype Hint = Hint(bounded: bool, maxStaleness: int, maxLsnLag: nat)

  predicate FreshEnough(n: Node, hint: Hint) {
    !hint.bounded || (n.stats.replayLag <= hint.maxStaleness && (hint.maxLsnLag == 0 || n.stats.lsnLag <= hint.maxLsnLag))
  }

  predicate Readable(n: Node, hint: Hint) {
    IsReplica(n.role) && Admitted(n) && n.stats.healthy && FreshEnough(n, hint)
  }

  predicate Better(a: Node, b: Node) {
    if a.stats.rtt != b.stats.rtt then a.stats.rtt < b.stats.rtt else a.weight > b.weight
  }

  /** In service: not out of use, with a pool, and its breaker not open. */
  predicate Serves(n: Node) { n.role !in {Archive, Maintenance} && n.pool && n.breaker.status != Open }

  /** A readable replica no other one beats, the first of equals; none only when there is none. */
  method PickBestReplica(nodes: seq<Node>, hint: Hint) returns (best: Option<nat>)
    ensures best.None? ==> forall i | 0 <= i < |nodes| :: !Readable(nodes[i], hint)
    ensures best.Some? ==> best.value < |nodes| && Readable(nodes[best.value], hint)
    ensures best.Some? ==> forall i | 0 <= i < |nodes| && Readable(nodes[i], hint) :: !Better(nodes[i], nodes[best.value])
    ensures best.Some? ==> forall i | 0 <= i < best.value && Readable(nodes[i], hint) :: Better(nodes[best.value], nodes[i])
    // the shortest round trip, then the greatest weight
    ensures best.Some? ==> forall i | 0 <= i < |nodes| && Readable(nodes[i], hint) ::
              && nodes[best.value].stats.rtt <= nodes[i].stats.rtt
              && (nodes[i].stats.rtt == nodes[best.value].stats.rtt ==> nodes[i].weight <= nodes[best.value].weight)
    ensures best.Some? ==> Serves(nodes[best.value]) && nodes[best.value].stats.healthy
                           && nodes[best.value].role in {SyncReplica, AsyncReplica, Analytics}
    ensures best.Some? && hint.bounded ==> nodes[best.value].stats.replayLag <= hint.maxStaleness
    ensures best.Some? && hint.bounded && hint.maxLsnLag != 0 ==> nodes[best.value].stats.lsnLag <= hint.maxLsnLag
  {
    best := None;
    for i := 0 to |nodes|
      invariant best.None? ==> forall j | 0 <= j < i :: !Readable(nodes[j], hint)
      invariant best.Some? ==> best.value < i && Readable(nodes[best.value], hint)
      invariant best.Some? ==> forall j | 0 <= j < i && Readable(nodes[j], hint) :: !Better(nodes[j], nodes[best.value])
      invariant best.Some? ==> forall j | 0 <= j < best.value && Readable(nodes[j], hint) :: Better(nodes[best.value], nodes[j])
    {
      var n := nodes[i];
      if IsReplica(n.role) && IsUsable(n.role) && n.breaker.status != Open && n.pool && n.stats.healthy && FreshEnough(n, hint) {
        if best.None? || Better(n, nodes[best.value]) {
          best := Some(i);
        }
      }
    }
  }

  predicate Deferrable(n: Node) { n.role == SyncReplica && Admitted(n) && n.stats.healthy }

  /** For a deferrable read-only transaction: the healthy synchronous replica with the
      least replay lag, the first of equals; none only when there is none. */
  method PickSyncReplica(nodes: seq<Node>) returns (best: Option<nat>)
    ensures best.None? ==> forall i | 0 <= i < |nodes| :: !Deferrable(nodes[i])
    ensures best.Some? ==> best.value < |nodes| && Deferrable(nodes[best.value])
    ensures best.Some? ==> forall i | 0 <= i < |nodes| && Deferrable(nodes[i]) ::
              nodes[best.value].stats.replayLag <= nodes[i].stats.replayLag
    ensures best.Some? ==> forall i | 0 <= i < best.value && Deferrable(nodes[i]) ::
              nodes[best.value].stats.replayLag < nodes[i].stats.replayLag
    ensures best.Some? ==> Serves(nodes[best.value]) && nodes[best.value].stats.healthy && nodes[best.value].role == SyncReplica
  {
    best := None;
    for i := 0 to |nodes|
      invariant best.None? ==> forall j | 0 <= j < i :: !Deferrable(nodes[j])
      invariant best.Some? ==> best.value < i && Deferrable(nodes[best.value])
      invariant best.Some? ==> forall j | 0 <= j < i && Deferrable(nodes[j]) ::
                  nodes[best.value].stats.replayLag <= nodes[j].stats.replayLag
      invariant best.Some? ==> forall j | 0 <= j < best.value && Deferrable(nodes[j]) ::
                  nodes[best.value].stats.replayLag < nodes[j].stats.replayLag
    {
      var n := nodes[i];
      if n.role == SyncReplica && IsUsable(n.role) && n.breaker.status != Open && n.pool && n.stats.healthy {
        if best.None? || n.stats.replayLag < nodes[best.value].stats.replayLag {
          best := Some(i);
        }
      }
    }
  }

  /** The first index of the list whose node has the property. */
  ghost predicate FirstOf(nodes: seq<Node>, idxs: seq<nat>, ok: Node -> bool, r: Option<nat>)
    requires forall i | 0 <= i < |idxs| :: idxs[i] < |nodes|
  {
    match r
    case None => forall i | 0 <= i < |idxs| :: !ok(nodes[idxs[i]])
    case Some(v) => exists i | 0 <= i < |idxs| :: idxs[i] == v && ok(nodes[v]) && forall j | 0 <= j < i :: !ok(nodes[idxs[j]])
  }

  method FindFirst(nodes: seq<Node>, idxs: seq<nat>, ok: Node -> bool) returns (r: Option<nat>)
    requires forall i | 0 <= i < |idxs| :: idxs[i] < |nodes|
    ensures FirstOf(nodes, idxs, ok, r)
  {
    for i := 0 to |idxs|
      invariant forall j | 0 <= j < i :: !ok(nodes[idxs[j]])
    {
      if ok(nodes[idxs[i]]) {
        return Some(idxs[i]);
      }
    }
    r := None;
  }

  function AllIndices(n: nat): (r: seq<nat>)
    ensures |r| == n && forall i | 0 <= i < n :: r[i] == i
  {
    seq(n, i => i)
  }

  predicate Leads(n: Node) { n.stats.isPrimary && Admitted(n) }

  predicate LeadsHealthy(n: Node) { Leads(n) && n.stats.healthy }

  predicate Configured(n: Node) { n.role == Primary && Admitted(n) }

  predicate ConfiguredHealthy(n: Node) { Configured(n) && n.stats.healthy }

  predicate Somewhere(nodes: seq<Node>, ok: Node -> bool) { exists i | 0 <= i < |nodes| :: ok(nodes[i]) }

  predicate Among(nodes: seq<Node>, idxs: seq<nat>, ok: Node -> bool)
    requires forall i | 0 <= i < |idxs| :: idxs[i] < |nodes|
  {
    exists i | 0 <= i < |idxs| :: ok(nodes[idxs[i]])
  }

  /** Detected leaders come first, the healthy ones in failover order before the
      rest in node order; then configured primaries in the same way. */
  ghost predicate IsPrimaryChoice(nodes: seq<Node>, failover: seq<nat>, autoDetect: bool, r: Option<nat>)
    requires forall i | 0 <= i < |failover| :: failover[i] < |nodes|
  {
    var all := AllIndices(|nodes|);
    if autoDetect && Among(nodes, failover, LeadsHealthy) then FirstOf(nodes, failover, LeadsHealthy, r)
    else if autoDetect && Somewhere(nodes, LeadsHealthy) then FirstOf(nodes, all, LeadsHealthy, r)
    else if autoDetect && Somewhere(nodes, Leads) then FirstOf(nodes, all, Leads, r)
    else if Among(nodes, failover, ConfiguredHealthy) then FirstOf(nodes, failover, ConfiguredHealthy, r)
    else FirstOf(nodes, all, Configured, r)
  }

  /** The primary to write to. None only when there is neither a detected leader nor a configured primary. */
  method PickPrimary(nodes: seq<Node>, failover: seq<nat>, autoDetect: bool) returns (r: Option<nat>)
    requires forall i | 0 <= i < |failover| :: failover[i] < |nodes|
    ensures IsPrimaryChoice(nodes, failover, autoDetect, r)
    ensures r.Some? ==> r.value < |nodes| && Admitted(nodes[r.value])
    ensures r.Some? <==> (autoDetect && Somewhere(nodes, Leads)) || Somewhere(nodes, Configured)
    ensures r.Some? ==> Serves(nodes[r.value])
    ensures r.Some? && autoDetect && (exists i | 0 <= i < |nodes| :: nodes[i].stats.isPrimary && Serves(nodes[i])) ==>
              nodes[r.value].stats.isPrimary
    ensures r.Some? && autoDetect && (exists i | 0 <= i < |nodes| :: nodes[i].stats.isPrimary && nodes[i].stats.healthy && Serves(nodes[i])) ==>
              nodes[r.value].stats.healthy
    ensures r.Some? && (!autoDetect || forall i | 0 <= i < |nodes| :: !(nodes[i].stats.isPrimary && Serves(nodes[i]))) ==>
              nodes[r.value].role == Primary
  {
    var all := AllIndices(|nodes|);
    if autoDetect {
      r := FindFirst(nodes, failover, LeadsHealthy);
      if r.Some? { return; }
      r := FindFirst(nodes, all, LeadsHealthy);
      if r.Some? { return; }
      Nowhere(nodes, LeadsHealthy);
      r := FindFirst(nodes, all, Leads);
      if r.Some? { return; }
      Nowhere(nodes, Leads);
    }
    r := FindFirst(nodes, failover, ConfiguredHealthy);
    if r.Some? { return; }
    r := FindFirst(nodes, all, Configured);
    if r.None? { Nowhere(nodes, Configured); }
  }

  lemma Nowhere(nodes: seq<Node>, ok: Node -> bool)
    requires FirstOf(nodes, AllIndices(|nodes|), ok, None)
    ensures !Somewhere(nodes, ok)
  {
    forall i | 0 <= i < |nodes| ensures !ok(nodes[i]) {
      assert AllIndices(|nodes|)[i] == i;
    }
  }

  predicate NamedFirst(nodes: seq<Node>, name: string, i: nat) {
    i < |nodes| && nodes[i].name == name && forall j | 0 <= j < i :: nodes[j].name != name
  }

  predicate Pinnable(n: Node, poolMade: bool) {
    IsUsable(n.role) && n.breaker.status != Open && n.stats.healthy && (n.pool || poolMade)
  }

  /** The index of a pinned node, if it may be used now. A missing pool is made on
      the way, even when the node then turns out unhealthy. */
  method Pin(nodes: seq<Node>, name: string, poolMade: bool) returns (r: Option<nat>, nodes': seq<Node>)
    ensures r.Some? ==> NamedFirst(nodes, name, r.value) && Pinnable(nodes[r.value], poolMade)
    ensures r.Some? ==> |nodes'| == |nodes| && Serves(nodes'[r.value]) && nodes'[r.value].stats.healthy
    ensures r.None? ==> forall i: nat | NamedFirst(nodes, name, i) :: !Pinnable(nodes[i], poolMade)
    ensures nodes' == nodes
         || exists i: nat | NamedFirst(nodes, name, i) && PoolWanted(nodes[i]) && poolMade ::
              nodes' == nodes[i := nodes[i].(pool := true)]
    ensures forall i: nat | NamedFirst(nodes, name, i) && PoolWanted(nodes[i]) && poolMade ::
              nodes' == nodes[i := nodes[i].(pool := true)]
  {
    nodes' := nodes;
    for i := 0 to |nodes|
      invariant nodes' == nodes && forall j | 0 <= j < i :: nodes[j].name != name
    {
      if nodes[i].name == name {
        forall k: nat | NamedFirst(nodes, name, k) ensures k == i { }
        var n := nodes[i];
        if !IsUsable(n.role) || n.breaker.status == Open {
          return None, nodes';
        }
        if !n.pool && poolMade {
          assert NamedFirst(nodes, name, i);
          nodes' := nodes[i := n.(pool := true)];
        }
        if !(n.pool || poolMade) || !n.stats.healthy {
          return None, nodes';
        }
        return Some(i), nodes';
      }
    }
    r := None;
  }

  predicate PoolWanted(n: Node) { IsUsable(n.role) && n.breaker.status != Open && !n.pool }

  // ---------- one node over a run of checks ----------

  /** A node after its first k checks. */
  function CheckedTo(n: Node, ps: seq<Probe>, k: nat, cfg: Health): (r: Node)
    requires k <= |ps|
    ensures r.role == n.role
  {
    if k == 0 then n else Checked(CheckedTo(n, ps, k - 1, cfg), ps[k - 1], cfg)
  }

  /** What a check adds to a node's history. */
  function Recorded(n: Node, p: Probe, cfg: Health): seq<Tick> {
    if IsUsable(n.role) then [Tick(p.now, Healthy(n, p, cfg))] else []
  }

  function TicksTo(n: Node, ps: seq<Probe>, k: nat, cfg: Health): (r: seq<Tick>)
    requires k <= |ps|
    ensures IsUsable(n.role) ==> |r| == k
  {
    if k == 0 then [] else TicksTo(n, ps, k - 1, cfg) + Recorded(CheckedTo(n, ps, k - 1, cfg), ps[k - 1], cfg)
  }

  lemma {:induction false} BreakerFollowsTicks(n: Node, ps: seq<Probe>, k: nat, cfg: Health)
    requires k <= |ps| && IsUsable(n.role) && n.breaker == INITIAL
    ensures var h := TicksTo(n, ps, k, cfg);
            CheckedTo(n, ps, k, cfg).breaker == After(h, k, cfg.delays)
    decreases k
  {
    if k > 0 {
      BreakerFollowsTicks(n, ps, k - 1, cfg);
      var m := CheckedTo(n, ps, k - 1, cfg);
      AfterSnoc(TicksTo(n, ps, k - 1, cfg), Tick(ps[k - 1].now, Healthy(m, ps[k - 1], cfg)), cfg.delays);
    }
  }

  /** Whatever the checks find, from a failed one until one that passes at or after
      the deadline no choice admits the node. */
  lemma FailedNodeStaysOut(n: Node, ps: seq<Probe>, f: nat, k: nat, cfg: Health, hint: Hint, poolMade: bool)
    requires f < k <= |ps| && IsUsable(n.role) && n.breaker == INITIAL
    requires !TicksTo(n, ps, k, cfg)[f].ok
    requires forall m: nat | f < m < k :: !LetsBackIn(TicksTo(n, ps, k, cfg), m, cfg.delays)
    ensures var now := CheckedTo(n, ps, k, cfg);
            && !Admitted(now) && !Readable(now, hint) && !Deferrable(now)
            && !Leads(now) && !Configured(now) && !Pinnable(now, poolMade)
  {
    BreakerFollowsTicks(n, ps, k, cfg);
    StaysOpen(TicksTo(n, ps, k, cfg), f, k, cfg.delays);
  }

  // ---------- the connector over a run ----------

  /** The ways to choose a node. */
  datatype Request = ToWrite | ToRead(hint: Hint) | ToDefer | ToPin(name: string, poolMade: bool)

  class Connector {
    var nodes: seq<Node>
    const cfg: Health
    const failover: seq<nat>
    // The checks every node went through.
    ghost var history: seq<seq<Tick>>

    ghost predicate Valid()
      reads this
    {
      && |history| == |nodes|
      && (forall i | 0 <= i < |failover| :: failover[i] < |nodes|)
      && forall i | 0 <= i < |nodes| :: nodes[i].breaker == After(history[i], |history[i]|, cfg.delays)
    }

    constructor (nodes: seq<Node>, cfg: Health, failover: seq<nat>)
      requires forall i | 0 <= i < |nodes| :: nodes[i].breaker == INITIAL
      requires forall i | 0 <= i < |failover| :: failover[i] < |nodes|
      ensures Valid() && this.nodes == nodes && history == seq(|nodes|, i => [])
    {
      this.nodes, this.cfg, this.failover := nodes, cfg, failover;
      history := seq(|nodes|, i => []);
    }

    /** Checks node `i` and moves its breaker. */
    method CheckNode(i: nat, p: Probe)
      requires Valid() && i < |nodes|
      modifies this
      ensures Valid() && nodes == old(nodes)[i := Checked(old(nodes)[i], p, cfg)]
      ensures history == if !IsUsable(old(nodes)[i].role) then old(history)
                         else old(history)[i := old(history)[i] + [Tick(p.now, Healthy(old(nodes)[i], p, cfg))]]
    {
      var n := nodes[i];
      if !IsUsable(n.role) {
        assert nodes[i := n] == nodes;
        return;
      }
      var ok := Healthy(n, p, cfg);
      AfterSnoc(history[i], Tick(p.now, ok), cfg.delays);
      history := history[i := history[i] + [Tick(p.now, ok)]];
      nodes := nodes[i := Checked(n, p, cfg)];
    }

    /** One round of checks: every usable node gets one tick. */
    method HealthTick(probes: seq<Probe>)
      requires Valid() && |probes| == |nodes|
      modifies this
      ensures Valid() && |nodes| == old(|nodes|)
      ensures forall i | 0 <= i < |nodes| :: nodes[i] == Checked(old(nodes)[i], probes[i], cfg)
      ensures forall i | 0 <= i < |nodes| :: history[i] == old(history)[i] + Recorded(old(nodes)[i], probes[i], cfg)
    {
      for i := 0 to |nodes|
        invariant Valid() && |nodes| == old(|nodes|)
        invariant forall j | 0 <= j < i :: nodes[j] == Checked(old(nodes)[j], probes[j], cfg)
        invariant forall j | 0 <= j < i :: history[j] == old(history)[j] + Recorded(old(nodes)[j], probes[j], cfg)
        invariant forall j | i <= j < |nodes| :: nodes[j] == old(nodes)[j] && history[j] == old(history)[j]
      {
        CheckNode(i, probes[i]);
      }
    }

    /** Any number of rounds: the health loop. */
    method HealthRounds(rounds: seq<seq<Probe>>)
      requires Valid() && forall r | 0 <= r < |rounds| :: |rounds[r]| == |nodes|
      modifies this
      ensures Valid() && |nodes| == old(|nodes|)
      ensures forall i | 0 <= i < |nodes| :: nodes[i] == CheckedTo(old(nodes)[i], ProbesOf(rounds, i), |rounds|, cfg)
      ensures forall i | 0 <= i < |nodes| ::
                history[i] == old(history)[i] + TicksTo(old(nodes)[i], ProbesOf(rounds, i), |rounds|, cfg)
    {
      for r := 0 to |rounds|
        invariant Valid() && |nodes| == old(|nodes|)
        invariant forall i | 0 <= i < |nodes| :: nodes[i] == CheckedTo(old(nodes)[i], ProbesOf(rounds, i), r, cfg)
        invariant forall i | 0 <= i < |nodes| ::
                    history[i] == old(history)[i] + TicksTo(old(nodes)[i], ProbesOf(rounds, i), r, cfg)
      {
        HealthTick(rounds[r]);
        forall i | 0 <= i < |nodes|
          ensures history[i] == old(history)[i] + TicksTo(old(nodes)[i], ProbesOf(rounds, i), r + 1, cfg)
        {
          Assoc(old(history)[i], TicksTo(old(nodes)[i], ProbesOf(rounds, i), r, cfg),
                Recorded(CheckedTo(old(nodes)[i], ProbesOf(rounds, i), r, cfg), rounds[r][i], cfg));
        }
      }
    }

    /** However a node is chosen, each of its failed checks was followed by one that
        passed at or after the deadline in force. */
    method Choose(req: Request) returns (r: Option<nat>)
      requires Valid()
      modifies this`nodes
      ensures Valid() && |nodes| == old(|nodes|)
      ensures forall i | 0 <= i < |nodes| :: nodes[i] == old(nodes)[i] || nodes[i] == old(nodes)[i].(pool := true)
      ensures r.Some? ==> r.value < |nodes| && IsUsable(nodes[r.value].role)
      ensures r.Some? ==> forall f: nat | f < |history[r.value]| && !history[r.value][f].ok ::
                            exists m: nat :: f < m < |history[r.value]| && LetsBackIn(history[r.value], m, cfg.delays)
    {
      match req {
        case ToWrite => { r := PickPrimary(nodes, failover, cfg.autoDetect); }
        case ToRead(hint) => { r := PickBestReplica(nodes, hint); }
        case ToDefer => { r := PickSyncReplica(nodes); }
        case ToPin(name, poolMade) => {
          var nodes';
          r, nodes' := Pin(nodes, name, poolMade);
          nodes := nodes';
        }
      }
      if r.Some? {
        NotOpenIsRecovered(history[r.value], cfg.delays);
      }
    }
  }

  /** The probes of node i in each round. */
  function ProbesOf(rounds: seq<seq<Probe>>, i: nat): (r: seq<Probe>)
    requires forall k | 0 <= k < |rounds| :: i < |rounds[k]|
    ensures |r| == |rounds|
  {
    seq(|rounds|, k requires 0 <= k < |rounds| => rounds[k][i])
  }

  lemma NotOpenIsRecovered(h: seq<Tick>, d: Delays)
    requires After(h, |h|, d).status != Open
    ensures forall f: nat | f < |h| && !h[f].ok :: exists m: nat :: f < m < |h| && LetsBackIn(h, m, d)
  {
    forall f: nat | f < |h| && !h[f].ok
      ensures exists m: nat :: f < m < |h| && LetsBackIn(h, m, d)
    {
      if forall m: nat | f < m < |h| :: !LetsBackIn(h, m, d) {
        StaysOpen(h, f, |h|, d);
      }
    }
  }

  lemma {:induction false} AfterPrefix(h: seq<Tick>, t: Tick, n: nat, d: Delays)
    requires n <= |h|
    ensures After(h + [t], n, d) == After(h, n, d)
    decreases n
  {
    if n > 0 { AfterPrefix(h, t, n - 1, d); }
  }

  lemma AfterSnoc(h: seq<Tick>, t: Tick, d: Delays)
    ensures After(h + [t], |h| + 1, d) == Applied(After(h, |h|, d), t, d)
  {
    AfterPrefix(h, t, |h|, d);
  }
}
