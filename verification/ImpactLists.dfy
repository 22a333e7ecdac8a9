/** The blast radius read off the edges and nodes of the graph: which list holds what, and what its entries say. */
module ImpactLists {
  import opened Prelude
  import opened Reals
  import opened Dependencies
  import opened DependencyGraphs
  import opened BlastRadii

  // ---------------------------------------------------------------------------
  // Chains of dependencies
  // ---------------------------------------------------------------------------

  /** Each edge of the chain starts where the one before it ends: `x` depends on `y` by way of what lies between. */
  ghost predicate Chained(edges: seq<Dependency>, x: string, y: string, chain: seq<Dependency>) {
    && chain != [] && chain[0].sourceId == x && chain[|chain| - 1].targetId == y
    && (forall i :: 0 <= i < |chain| ==> chain[i] in edges)
    && forall i :: 0 < i < |chain| ==> chain[i - 1].targetId == chain[i].sourceId
  }

  /** The same chain written from its far end: each edge ends where the one before it starts. */
  ghost predicate ChainedBack(edges: seq<Dependency>, y: string, x: string, chain: seq<Dependency>) {
    && chain != [] && chain[0].targetId == y && chain[|chain| - 1].sourceId == x
    && (forall i :: 0 <= i < |chain| ==> chain[i] in edges)
    && forall i :: 0 < i < |chain| ==> chain[i - 1].sourceId == chain[i].targetId
  }

  /** `x` depends on `y` over at most `k` edges. */
  ghost predicate DependsWithin(edges: seq<Dependency>, x: string, y: string, k: int) {
    exists chain :: Chained(edges, x, y, chain) && |chain| <= k
  }

  lemma {:induction false} WalkIsChain(edges: seq<Dependency>, a: string, b: string, w: seq<Dependency>)
    requires w != []
    ensures IsWalk(edges, Outgoing, a, b, w) <==> Chained(edges, a, b, w)
    decreases |w|
  {
    var n := |w| - 1;
    if n == 0 {
      assert w[..0] == [];
    } else {
      var init := w[..n];
      WalkIsChain(edges, a, w[n].sourceId, init);
      assert forall i :: 0 <= i < n ==> init[i] == w[i];
    }
  }

  lemma {:induction false} WalkIsChainBack(edges: seq<Dependency>, b: string, a: string, w: seq<Dependency>)
    requires w != []
    ensures IsWalk(edges, Incoming, b, a, w) <==> ChainedBack(edges, b, a, w)
    decreases |w|
  {
    var n := |w| - 1;
    if n == 0 {
      assert w[..0] == [];
    } else {
      var init := w[..n];
      WalkIsChainBack(edges, b, w[n].targetId, init);
      assert forall i :: 0 <= i < n ==> init[i] == w[i];
    }
  }

  lemma {:induction false} Nearest(edges: seq<Dependency>, dir: Direction, a: string, b: string, n: nat) returns (d: nat)
    requires 1 <= n && HasWalk(edges, dir, a, b, n)
    ensures d <= n && IsDistance(edges, dir, a, b, d)
    decreases n
  {
    hide HasWalk;
    if IsDistance(edges, dir, a, b, n) {
      d := n;
    } else {
      var m :| 1 <= m < n && HasWalk(edges, dir, a, b, m);
      d := Nearest(edges, dir, a, b, m);
    }
  }

  ghost predicate NearWithin(edges: seq<Dependency>, dir: Direction, a: string, b: string, k: int) {
    exists n: nat :: n <= k && IsDistance(edges, dir, a, b, n)
  }

  lemma UpstreamByChain(edges: seq<Dependency>, a: string, b: string, k: int)
    ensures NearWithin(edges, Outgoing, a, b, k) <==> DependsWithin(edges, a, b, k)
  {
    hide Chained, IsWalk;
    if NearWithin(edges, Outgoing, a, b, k) {
      var n: nat :| n <= k && IsDistance(edges, Outgoing, a, b, n);
      var w :| |w| == n && IsWalk(edges, Outgoing, a, b, w);
      WalkIsChain(edges, a, b, w);
    }
    if DependsWithin(edges, a, b, k) {
      var w :| Chained(edges, a, b, w) && |w| <= k;
      assert w != [] by {
        ChainNotEmpty(edges, a, b, w);
      }
      WalkIsChain(edges, a, b, w);
      assert HasWalk(edges, Outgoing, a, b, |w|);
      var d := Nearest(edges, Outgoing, a, b, |w|);
    }
  }

  lemma ChainNotEmpty(edges: seq<Dependency>, a: string, b: string, w: seq<Dependency>)
    requires Chained(edges, a, b, w)
    ensures w != []
  {
  }

  lemma DownstreamByChain(edges: seq<Dependency>, a: string, b: string, k: int)
    ensures NearWithin(edges, Incoming, a, b, k) <==> DependsWithin(edges, b, a, k)
  {
    hide HasWalk;
    UpstreamByChain(edges, b, a, k);
    forall n: nat ensures IsDistance(edges, Incoming, a, b, n) <==> IsDistance(edges, Outgoing, b, a, n) {
      forall m: nat ensures HasWalk(edges, Incoming, a, b, m) <==> HasWalk(edges, Outgoing, b, a, m) {
        HasWalkReversed(edges, Incoming, a, b, m);
      }
    }
  }

  // ---------------------------------------------------------------------------
  // Which list holds what
  // ---------------------------------------------------------------------------

  ghost predicate Holds(list: seq<AffectedResource>, x: string) {
    exists r :: r in list && r.resource.id == x
  }

  /** Something changed, other than `x`, that `x` depends on within the bound. */
  ghost predicate DependsOnChanged(g: Network, ids: seq<string>, k: int, x: string) {
    exists id :: id in ids && id in g.nodes && id != x && DependsWithin(g.edges, x, id, k)
  }

  /** Something changed, other than `x`, depends on `x` within the bound. */
  ghost predicate ChangedDependsOn(g: Network, ids: seq<string>, k: int, x: string) {
    exists id :: id in ids && id in g.nodes && id != x && DependsWithin(g.edges, id, x, k)
  }

  lemma CollectHolds(g: Network, dir: Direction, impact: Impact, ids: seq<string>, k: int, x: string)
    requires g.WellFormed()
    ensures Holds(Collect(g, dir, impact, ids, k), x) <==>
            exists id :: id in ids && id in g.nodes && id != x && NearWithin(g.edges, dir, id, x, k)
  {
    hide IsDistance, Collect;
    var list := Collect(g, dir, impact, ids, k);
    CollectIsUnion(g, dir, impact, ids, k, x);
    IdsAre(list, x);
    assert Holds(list, x) <==> exists i :: 0 <= i < |list| && list[i].resource.id == x;
    assert forall i :: 0 <= i < |ids| ==> ids[i] in ids;
    forall id ensures Serves(g, dir, id, k, x) <==> id in g.nodes && id != x && NearWithin(g.edges, dir, id, x, k) {
    }
  }

  lemma {:induction false} DirectHolds(g: Network, ids: seq<string>, x: string)
    requires g.WellFormed()
    ensures Holds(DirectImpact(g, ids), x) <==> x in ids && x in g.nodes
    ensures forall r :: r in DirectImpact(g, ids) ==>
              r.resource.id in g.nodes && r == Describe(g.nodes[r.resource.id], Direct, 0, [])
  {
    if ids != [] {
      var n := |ids| - 1;
      DirectHolds(g, ids[..n], x);
      assert ids == ids[..n] + [ids[n]];
      var most, last := DirectImpact(g, ids[..n]), DirectImpact(g, ids)[|DirectImpact(g, ids[..n])|..];
      assert DirectImpact(g, ids) == most + last;
      assert Holds(most + last, x) <==> Holds(most, x) || Holds(last, x);
      if ids[n] in g.nodes {
        assert last == [Describe(g.nodes[ids[n]], Direct, 0, [])];
        assert last[0] in last && last[0].resource.id == ids[n];
      }
    }
  }

  /** One direct entry for every changed id the graph knows, in order and as often as it is named. */
  lemma {:induction false} DirectPerId(g: Network, a: seq<string>, b: seq<string>)
    ensures DirectImpact(g, a + b) == DirectImpact(g, a) + DirectImpact(g, b)
    ensures |b| == 1 ==> |DirectImpact(g, b)| == (if b[0] in g.nodes then 1 else 0)
  {
    if b == [] {
      assert a + b == a;
    } else {
      var n := |b| - 1;
      assert (a + b)[..|a| + n] == a + b[..n];
      DirectPerId(g, a, b[..n]);
      assert DirectImpact(g, []) == [];
    }
  }

  /**
   * Direct are the changed resources the graph knows; downstream is what depends on one of them other than itself,
   * over at most `k` edges; upstream is what one of them depends on.
   */
  lemma ListsByChains(g: Network, ids: seq<string>, k: int, x: string)
    requires g.WellFormed()
    ensures var b := BlastOf(g, ids, k);
            && (Holds(b.direct, x) <==> x in ids && x in g.nodes)
            && (Holds(b.downstream, x) <==> DependsOnChanged(g, ids, k, x))
            && (Holds(b.upstream, x) <==> ChangedDependsOn(g, ids, k, x))
  {
    hide Collect, DirectImpact, NearWithin, DependsWithin, Holds;
    DirectHolds(g, ids, x);
    CollectHolds(g, Incoming, Downstream, ids, k, x);
    CollectHolds(g, Outgoing, Upstream, ids, k, x);
    forall id ensures NearWithin(g.edges, Incoming, id, x, k) <==> DependsWithin(g.edges, x, id, k) {
      DownstreamByChain(g.edges, id, x, k);
    }
    forall id ensures NearWithin(g.edges, Outgoing, id, x, k) <==> DependsWithin(g.edges, id, x, k) {
      UpstreamByChain(g.edges, id, x, k);
    }
  }

  lemma ChainOfOne(edges: seq<Dependency>, e: Dependency)
    requires e in edges
    ensures Chained(edges, e.sourceId, e.targetId, [e])
  {
  }

  lemma ChainDepends()
    ensures var edges := Chain().edges;
            DependsWithin(edges, "b", "a", 4) && DependsWithin(edges, "x", "b", 4) && DependsWithin(edges, "x", "a", 4)
    ensures forall y, w :: !Chained(Chain().edges, "a", y, w) && !Chained(Chain().edges, y, "x", w)
  {
    var edges, first, second := Chain().edges, Uses("b", "a"), Uses("x", "b");
    ChainOfOne(edges, first);
    ChainOfOne(edges, second);
    assert Chained(edges, "x", "a", [second, first]);
    assert "a"[0] != "b"[0] && "b"[0] != "x"[0] && "a"[0] != "x"[0];
    assert forall e :: e in edges ==> e.sourceId != "a" && e.targetId != "x";
  }

  lemma OneChanged(g: Network, id: string, x: string, k: int)
    requires g.WellFormed() && id in g.nodes && id != x
    ensures DependsWithin(g.edges, x, id, k) ==> Holds(BlastOf(g, [id], k).downstream, x)
    ensures DependsWithin(g.edges, id, x, k) ==> Holds(BlastOf(g, [id], k).upstream, x)
  {
    hide BlastOf, Holds, DependsWithin;
    assert id in [id];
    ListsByChains(g, [id], k, x);
  }

  lemma NothingHeld(g: Network, id: string, k: int)
    requires g.WellFormed()
    ensures (forall y :: !DependsWithin(g.edges, id, y, k)) ==> BlastOf(g, [id], k).upstream == []
    ensures (forall y :: !DependsWithin(g.edges, y, id, k)) ==> BlastOf(g, [id], k).downstream == []
  {
    hide BlastOf, DependsWithin;
    var b := BlastOf(g, [id], k);
    if b.upstream != [] {
      assert b.upstream[0] in b.upstream;
      ListsByChains(g, [id], k, b.upstream[0].resource.id);
    }
    if b.downstream != [] {
      assert b.downstream[0] in b.downstream;
      ListsByChains(g, [id], k, b.downstream[0].resource.id);
    }
  }

  /** `x` uses `b`, and `b` uses `a`: a change to `a` has both downstream, nothing upstream, and one to `x` the reverse. */
  lemma ChainLists()
    ensures var b := BlastOf(Chain(), ["a"], 4);
            && Holds(b.downstream, "b") && Holds(b.downstream, "x") && b.upstream == []
    ensures var b := BlastOf(Chain(), ["x"], 4);
            && Holds(b.upstream, "b") && Holds(b.upstream, "a") && b.downstream == []
  {
    var g := Chain();
    assert g.WellFormed() && "a" in g.nodes && "x" in g.nodes;
    assert "a"[0] != "b"[0] && "b"[0] != "x"[0] && "a"[0] != "x"[0];
    hide BlastOf, Holds, Chained, Chain;
    ChainDepends();
    OneChanged(g, "a", "b", 4);
    OneChanged(g, "a", "x", 4);
    OneChanged(g, "x", "b", 4);
    OneChanged(g, "x", "a", 4);
    NothingHeld(g, "a", 4);
    NothingHeld(g, "x", 4);
  }

  // ---------------------------------------------------------------------------
  // What an entry says
  // ---------------------------------------------------------------------------

  /** A value Python counts as false. */
  predicate Falsy(v: Value) {
    v in [Null, Bool(false), Num(0.0), Str(""), List([]), Dict(map[])]
  }

  ghost predicate MarkedCritical(n: Node) {
    "critical" in n.metadata && !Falsy(n.metadata["critical"])
  }

  /** An entry copies its node: critical if marked so, in production unless marked otherwise. */
  ghost predicate Describes(r: AffectedResource, n: Node) {
    && r.resource == n
    && (r.criticality == Critical <==> MarkedCritical(n))
    && (r.criticality == Unknown <==> "critical" !in n.metadata)
    && (r.production <==> ("production" in n.metadata ==> !Falsy(n.metadata["production"])))
  }

  lemma TruthyExactly(v: Value)
    ensures Truthy(v) <==> !Falsy(v)
  {
  }

  lemma DescribeDescribes(n: Node, impact: Impact, hops: nat, via: seq<Dependency>)
    ensures Describes(Describe(n, impact, hops, via), n)
  {
    if "critical" in n.metadata {
      TruthyExactly(n.metadata["critical"]);
    }
    if "production" in n.metadata {
      TruthyExactly(n.metadata["production"]);
    }
  }

  /**
   * Every entry is a node of the graph. A downstream entry carries the chain it was found by, written from the changed
   * resource, and an upstream entry the one that starts there; the hops are the edges of the chain.
   */
  lemma EntriesAreNodes(g: Network, ids: seq<string>, k: int, r: AffectedResource)
    requires g.WellFormed()
    ensures var b := BlastOf(g, ids, k);
            && (r in b.direct + b.downstream + b.upstream ==> r.resource.id in g.nodes && Describes(r, g.nodes[r.resource.id]))
            && (r in b.direct ==> r.impact == Direct && r.hops == 0 && r.via == [])
            && (r in b.downstream ==>
                  && r.impact == Downstream && r.hops == |r.via| <= k
                  && exists id :: id in ids && id in g.nodes && ChainedBack(g.edges, id, r.resource.id, r.via))
            && (r in b.upstream ==>
                  && r.impact == Upstream && r.hops == |r.via| <= k
                  && exists id :: id in ids && id in g.nodes && Chained(g.edges, id, r.resource.id, r.via))
  {
    hide Collect, DirectImpact, Describe, Describes, Chained, ChainedBack;
    if r in DirectImpact(g, ids) {
      DirectHolds(g, ids, r.resource.id);
      DescribeDescribes(g.nodes[r.resource.id], Direct, 0, []);
      DescribeCopies(g.nodes[r.resource.id], Direct, 0, []);
    }
    CollectedIsNode(g, Incoming, Downstream, ids, k, r);
    CollectedIsNode(g, Outgoing, Upstream, ids, k, r);
  }

  lemma DescribeCopies(n: Node, impact: Impact, hops: nat, via: seq<Dependency>)
    ensures var r := Describe(n, impact, hops, via); r.impact == impact && r.hops == hops && r.via == via
  {
  }

  lemma CollectedIsNode(g: Network, dir: Direction, impact: Impact, ids: seq<string>, k: int, r: AffectedResource)
    requires g.WellFormed()
    ensures r in Collect(g, dir, impact, ids, k) ==>
              && r.resource.id in g.nodes && Describes(r, g.nodes[r.resource.id])
              && r.impact == impact && r.hops == |r.via| <= k
              && exists id :: id in ids && id in g.nodes
                   && if dir == Incoming then ChainedBack(g.edges, id, r.resource.id, r.via)
                      else Chained(g.edges, id, r.resource.id, r.via)
  {
    hide Collect, Describe, Describes, Chained, ChainedBack, IsWalk;
    var list := Collect(g, dir, impact, ids, k);
    if r in list {
      var j :| 0 <= j < |list| && list[j] == r;
      CollectIsJustified(g, dir, impact, ids, k, j);
      DescribeDescribes(g.nodes[r.resource.id], impact, r.hops, r.via);
      DescribeCopies(g.nodes[r.resource.id], impact, r.hops, r.via);
      var i :| 0 <= i < |ids| && Serves(g, dir, ids[i], k, r.resource.id)
            && IsWalk(g.edges, dir, ids[i], r.resource.id, r.via);
      assert ids[i] in ids;
      if dir == Incoming {
        WalkIsChainBack(g.edges, ids[i], r.resource.id, r.via);
      } else {
        WalkIsChain(g.edges, ids[i], r.resource.id, r.via);
      }
    }
  }

  // ---------------------------------------------------------------------------
  // The rollups, the scope and the confidence
  // ---------------------------------------------------------------------------

  ghost predicate NamedAs(list: seq<AffectedResource>, kind: ResourceType, name: string) {
    exists r :: r in list && r.resource.resourceType == kind && r.resource.name == name
  }

  /** The rollups name what is changed or downstream, by kind; only what is downstream can be a critical dependency. */
  lemma RollupsAre(g: Network, ids: seq<string>, k: int, name: string)
    requires g.WellFormed()
    ensures var b := BlastOf(g, ids, k);
            var hit := b.direct + b.downstream;
            && (name in b.services <==> NamedAs(hit, Service, name))
            && (name in b.apis <==> NamedAs(hit, ApiEndpoint, name))
            && (name in b.pipelines <==> NamedAs(hit, DataPipeline, name))
            && (name in b.tables <==>
                  NamedAs(hit, Table, name) || NamedAs(hit, View, name) || NamedAs(hit, ReplicationTarget, name))
            && (name in b.databases <==>
                  exists r :: r in hit && "database" in r.resource.metadata && r.resource.metadata["database"] == Str(name))
            && (name in b.critical <==>
                  exists r :: r in b.downstream && MarkedCritical(r.resource) && r.resource.name == name)
  {
    hide Collect, DirectImpact, MarkedCritical, NamesOf, DatabasesOf, CriticalOf, ScopeFor, EstimateConfidence, NamedAs;
    var b := BlastOf(g, ids, k);
    var hit := b.direct + b.downstream;
    NamesAre(hit, Service, name);
    NamesAre(hit, ApiEndpoint, name);
    NamesAre(hit, DataPipeline, name);
    TablesAre(hit, name);
    DatabasesAre(hit, name);
    forall r | r in b.downstream ensures r.criticality == Critical <==> MarkedCritical(r.resource) {
      EntriesAreNodes(g, ids, k, r);
    }
    CriticalAre(b.downstream, name);
  }

  lemma NamesAre(list: seq<AffectedResource>, kind: ResourceType, name: string)
    ensures name in NamesOf(list, {kind}) <==> NamedAs(list, kind, name)
  {
  }

  lemma TablesAre(list: seq<AffectedResource>, name: string)
    ensures name in NamesOf(list, {Table, View, ReplicationTarget}) <==>
            NamedAs(list, Table, name) || NamedAs(list, View, name) || NamedAs(list, ReplicationTarget, name)
  {
  }

  lemma DatabasesAre(list: seq<AffectedResource>, name: string)
    ensures name in DatabasesOf(list) <==>
            exists r :: r in list && "database" in r.resource.metadata && r.resource.metadata["database"] == Str(name)
  {
  }

  lemma CriticalAre(list: seq<AffectedResource>, name: string)
    requires forall r :: r in list ==> (r.criticality == Critical <==> MarkedCritical(r.resource))
    ensures name in CriticalOf(list) <==> exists r :: r in list && MarkedCritical(r.resource) && r.resource.name == name
  {
    hide MarkedCritical;
  }

  ghost predicate AnyCritical(list: seq<AffectedResource>) {
    exists r :: r in list && MarkedCritical(r.resource)
  }

  /** The scope goes by what is downstream: up to 1, 4 and 9 entries; a critical one rules out the narrowest. */
  lemma ScopeByCount(g: Network, ids: seq<string>, k: int)
    requires g.WellFormed()
    ensures var b := BlastOf(g, ids, k);
            var n := |b.downstream|;
            && (b.scope == Narrow <==> n <= 1 && !AnyCritical(b.downstream))
            && (b.scope == Moderate <==> 2 <= n <= 4 || (n <= 1 && AnyCritical(b.downstream)))
            && (b.scope == Wide <==> 5 <= n <= 9)
            && (b.scope == Extensive <==> 10 <= n)
  {
    hide Collect, DirectImpact, MarkedCritical, ScopeFor, CriticalOf, NamesOf, DatabasesOf, EstimateConfidence;
    var b := BlastOf(g, ids, k);
    if name :| name in b.critical {
      RollupsAre(g, ids, k, name);
    }
    if r :| r in b.downstream && MarkedCritical(r.resource) {
      RollupsAre(g, ids, k, r.resource.name);
    }
    ScopeOf(b, AnyCritical(b.downstream));
  }

  lemma ScopeOf(b: BlastRadius, critical: bool)
    requires b.scope == ScopeFor(|b.downstream|, b.critical != {}) && (b.critical != {} <==> critical)
    ensures var n := |b.downstream|;
            && (b.scope == Narrow <==> n <= 1 && !critical)
            && (b.scope == Moderate <==> 2 <= n <= 4 || (n <= 1 && critical))
            && (b.scope == Wide <==> 5 <= n <= 9)
            && (b.scope == Extensive <==> 10 <= n)
  {
  }

  /** The confidence is 1 with nothing downstream, else the mean confidence of the chains, to four digits. */
  lemma ConfidenceIsMean(g: Network, ids: seq<string>, k: int)
    ensures var b := BlastOf(g, ids, k);
            && (b.downstream == [] ==> b.confidence == 1.0)
            && (b.downstream != [] ==>
                  var n := |b.downstream| as real;
                  -0.00005 <= b.confidence - Sum(PathConfidences(b.downstream)) / n <= 0.00005)
  {
    hide Collect, DirectImpact, Round4;
    var list := BlastOf(g, ids, k).downstream;
    if list != [] {
      RoundError(Sum(PathConfidences(list)) / |list| as real);
    }
  }
}
