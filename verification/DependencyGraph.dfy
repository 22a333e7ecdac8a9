/** The mutable graph object: an edge list with two adjacency indexes beside it. */
module DependencyGraphs {
  import opened Prelude
  import opened Dependencies

  /** One entry of a traversal's answer. */
  datatype Reached = Reached(node: Node, hops: nat, via: seq<Dependency>)

  /** Attach nodes to discovered ids, dropping ids that are not nodes. */
  function Attach(nodes: map<string, Node>, hits: seq<Hit>): seq<Reached> {
    if hits == [] then
      []
    else
      var n := |hits| - 1;
      Attach(nodes, hits[..n]) +
      (if hits[n].id in nodes then [Reached(nodes[hits[n].id], hits[n].hops, hits[n].via)] else [])
  }

  /** What a traversal from `id` answers on graph `g`. */
  function Reach(g: Network, dir: Direction, id: string, k: int): seq<Reached> {
    Attach(g.nodes, Discover(g.edges, dir, id, k))
  }

  /** On a well-formed graph every discovered id is a node, so the answer is the discovery, entry by entry. */
  lemma {:induction false} AttachAll(g: Network, dir: Direction, hits: seq<Hit>)
    requires g.WellFormed()
    requires forall i :: 0 <= i < |hits| ==> hits[i].id in Ends(g.edges, dir)
    ensures |Attach(g.nodes, hits)| == |hits|
    ensures forall i :: 0 <= i < |hits| ==>
              && hits[i].id in g.nodes
              && Attach(g.nodes, hits)[i] == Reached(g.nodes[hits[i].id], hits[i].hops, hits[i].via)
  {
    if hits != [] {
      var n := |hits| - 1;
      AttachAll(g, dir, hits[..n]);
      assert hits[n].id in Ends(g.edges, dir);
    }
  }

  /** The answer's entries have distinct nodes; each is a node of the graph with a walk of the stated length to it. */
  lemma ReachIsSound(g: Network, dir: Direction, id: string, k: int)
    requires g.WellFormed()
    ensures var r := Reach(g, dir, id, k);
            && (forall i, j :: 0 <= i < j < |r| ==> r[i].node.id != r[j].node.id)
            && (forall i :: 0 <= i < |r| ==>
                  && r[i].node.id in g.nodes && g.nodes[r[i].node.id] == r[i].node
                  && IsWalk(g.edges, dir, id, r[i].node.id, r[i].via)
                  && 1 <= r[i].hops == |r[i].via| <= k)
  {
    var hits := Discover(g.edges, dir, id, k);
    DiscoverIsSound(g.edges, dir, id, k);
    forall i | 0 <= i < |hits| ensures hits[i].id in Ends(g.edges, dir) {
      assert SoundHit(g.edges, dir, id, k, hits[i]);
    }
    AttachAll(g, dir, hits);
    var r := Reach(g, dir, id, k);
    forall i | 0 <= i < |r|
      ensures r[i].node.id in g.nodes && g.nodes[r[i].node.id] == r[i].node && r[i].node.id == hits[i].id
      ensures IsWalk(g.edges, dir, id, r[i].node.id, r[i].via) && 1 <= r[i].hops == |r[i].via| <= k
    {
      assert SoundHit(g.edges, dir, id, k, hits[i]);
    }
  }

  /** A node is in the answer at `h` hops exactly when `h` is its distance and within the bound. */
  lemma ReachIsExact(g: Network, dir: Direction, id: string, k: int, x: string, h: nat)
    requires g.WellFormed()
    ensures (exists i :: 0 <= i < |Reach(g, dir, id, k)|
                      && Reach(g, dir, id, k)[i].node.id == x && Reach(g, dir, id, k)[i].hops == h)
            <==> (h <= k && IsDistance(g.edges, dir, id, x, h))
  {
    var hits := Discover(g.edges, dir, id, k);
    DiscoverIsSound(g.edges, dir, id, k);
    forall i | 0 <= i < |hits| ensures hits[i].id in Ends(g.edges, dir) {
      assert SoundHit(g.edges, dir, id, k, hits[i]);
    }
    AttachAll(g, dir, hits);
    DiscoverIsExact(g.edges, dir, id, k, x, h);
    var r := Reach(g, dir, id, k);
    assert forall i :: 0 <= i < |r| ==> r[i].node.id == hits[i].id && r[i].hops == hits[i].hops;
    if Reports(g.edges, dir, id, k, x, h) {
      var i :| 0 <= i < |hits| && hits[i].id == x && hits[i].hops == h;
      assert r[i].node.id == x;
    }
  }

  function Lookup(index: map<string, seq<Dependency>>, id: string): seq<Dependency> {
    if id in index then index[id] else []
  }

  ghost predicate Indexes(index: map<string, seq<Dependency>>, edges: seq<Dependency>, dir: Direction) {
    forall id :: Lookup(index, id) == Incident(edges, dir, id)
  }

  lemma IndexAppend(index: map<string, seq<Dependency>>, edges: seq<Dependency>, dir: Direction, e: Dependency)
    requires Indexes(index, edges, dir)
    ensures Indexes(index[Near(dir, e) := Lookup(index, Near(dir, e)) + [e]], edges + [e], dir)
  {
    forall id
      ensures Lookup(index[Near(dir, e) := Lookup(index, Near(dir, e)) + [e]], id) == Incident(edges + [e], dir, id)
    {
      IncidentAppend(edges, dir, e, id);
      assert Lookup(index, id) == Incident(edges, dir, id);
    }
  }

  lemma IncidentAppend(edges: seq<Dependency>, dir: Direction, e: Dependency, id: string)
    ensures Incident(edges + [e], dir, id) == Incident(edges, dir, id) + (if Near(dir, e) == id then [e] else [])
  {
    assert (edges + [e])[..|edges|] == edges;
  }

  datatype GraphError = MissingEndpoint(sourceId: string, targetId: string)

  class DependencyGraph {
    var nodes: map<string, Node>
    var edges: seq<Dependency>
    var outgoing: map<string, seq<Dependency>>
    var incoming: map<string, seq<Dependency>>

    ghost function Model(): Network
      reads this
    {
      Network(nodes, edges)
    }

    /** Edges join known nodes and both indexes are the order-preserving filters of the edge list. */
    ghost predicate Valid()
      reads this
    {
      && Model().WellFormed()
      && Indexes(outgoing, edges, Direction.Outgoing)
      && Indexes(incoming, edges, Direction.Incoming)
    }

    constructor ()
      ensures Valid() && Model() == Network(map[], [])
    {
      nodes, edges, outgoing, incoming := map[], [], map[], map[];
    }

    /** The first node stored under an id stays. */
    method AddNode(node: Node) returns (stored: Node)
      requires Valid()
      modifies this
      ensures Valid()
      ensures nodes == if node.id in old(nodes) then old(nodes) else old(nodes)[node.id := node]
      ensures edges == old(edges) && outgoing == old(outgoing) && incoming == old(incoming)
      ensures stored == nodes[node.id]
    {
      if node.id !in nodes {
        nodes := nodes[node.id := node];
      }
      stored := nodes[node.id];
    }

    /** Refused, with nothing changed, exactly when an endpoint is unknown. */
    method AddEdge(e: Dependency) returns (r: Result<(), GraphError>)
      requires Valid()
      modifies this
      ensures Valid()
      ensures r.Ok? <==> e.sourceId in old(nodes) && e.targetId in old(nodes)
      ensures r.Err? ==> r.error == MissingEndpoint(e.sourceId, e.targetId)
      ensures nodes == old(nodes)
      ensures edges == if r.Ok? then old(edges) + [e] else old(edges)
      ensures r.Err? ==> outgoing == old(outgoing) && incoming == old(incoming)
    {
      if e.sourceId !in nodes || e.targetId !in nodes {
        return Err(MissingEndpoint(e.sourceId, e.targetId));
      }
      IndexAppend(outgoing, edges, Direction.Outgoing, e);
      IndexAppend(incoming, edges, Direction.Incoming, e);
      edges := edges + [e];
      outgoing := outgoing[e.sourceId := Lookup(outgoing, e.sourceId) + [e]];
      incoming := incoming[e.targetId := Lookup(incoming, e.targetId) + [e]];
      r := Ok(());
    }

    function NodeById(id: string): Option<Node>
      reads this
    {
      if id in nodes then Some(nodes[id]) else None
    }

    /** Everything that depends on `id`, within `maxHops` edges. */
    method DownstreamOf(id: string, maxHops: int) returns (r: seq<Reached>)
      requires Valid()
      ensures r == Reach(Model(), Direction.Incoming, id, maxHops)
    {
      r := Traverse(id, incoming, Direction.Incoming, maxHops);
    }

    /** Everything `id` depends on, within `maxHops` edges. */
    method UpstreamOf(id: string, maxHops: int) returns (r: seq<Reached>)
      requires Valid()
      ensures r == Reach(Model(), Direction.Outgoing, id, maxHops)
    {
      r := Traverse(id, outgoing, Direction.Outgoing, maxHops);
    }

    /** The frontier loop; `visited` is an insertion-ordered dictionary whose keys `order` lists. */
    method Traverse(start: string, adjacency: map<string, seq<Dependency>>, dir: Direction, maxHops: int)
      returns (r: seq<Reached>)
      requires Valid()
      requires adjacency == if dir == Direction.Outgoing then outgoing else incoming
      ensures r == Reach(Model(), dir, start, maxHops)
    {
      var visited: map<string, (nat, seq<Dependency>)> := map[];
      var order: seq<string> := [];
      var frontier := [Hit(start, 0, [])];
      ghost var hits, i := [Hit(start, 0, [])], 0;
      ExploreStart(edges, dir, start, maxHops);
      ghost var all := Explore(edges, dir, start, maxHops, hits, 0);
      while frontier != []
        invariant i <= |hits| && Exploring(edges, dir, start, maxHops, hits, i)
        invariant Explore(edges, dir, start, maxHops, hits, i) == all
        invariant frontier == hits[i..]
        invariant Records(visited, order, hits)
        decreases |Ends(edges, dir)| + 1 - i
      {
        ghost var more := ExploreStep(edges, dir, start, maxHops, hits, i);
        PopSlice(hits, more, i);
        var cur := frontier[0];
        frontier := frontier[1..];
        if cur.hops < maxHops {
          var out := if cur.id in adjacency then adjacency[cur.id] else [];
          assert out == Incident(edges, dir, cur.id) by {
            assert out == Lookup(adjacency, cur.id);
          }
          visited, order, frontier := VisitEdges(dir, cur, out, visited, order, frontier, hits);
        }
        hits, i := more, i + 1;
      }
      ExploreEnd(edges, dir, start, maxHops, hits, i);
      r := CollectVisited(visited, order, hits);
    }

    /** The loop over the edges of the entry just popped: the `for` inside the frontier loop. */
    method VisitEdges(dir: Direction, cur: Hit, out: seq<Dependency>,
                      visited0: map<string, (nat, seq<Dependency>)>, order0: seq<string>, frontier0: seq<Hit>,
                      ghost hits0: seq<Hit>)
      returns (visited: map<string, (nat, seq<Dependency>)>, order: seq<string>, frontier: seq<Hit>)
      requires |hits0| > 0 && AllWithin(hits0, cur.hops + 1)
      requires Records(visited0, order0, hits0)
      ensures var hits := Absorb(dir, cur, out, hits0);
              hits0 <= hits && frontier == frontier0 + hits[|hits0|..] && Records(visited, order, hits)
    {
      hide Absorb, Records, Seen;
      visited, order, frontier := visited0, order0, frontier0;
      ghost var hits := hits0;
      assert out[0..] == out && hits0[|hits0|..] == [];
      for n := 0 to |out|
        invariant hits0 <= hits && AllWithin(hits, cur.hops + 1)
        invariant Absorb(dir, cur, out[n..], hits) == Absorb(dir, cur, out, hits0)
        invariant frontier == frontier0 + hits[|hits0|..]
        invariant Records(visited, order, hits)
      {
        var e := out[n];
        var other := if dir == Direction.Outgoing then e.targetId else e.sourceId;
        var path := cur.via + [e];
        AbsorbHead(dir, cur, out, n, hits);
        SeenWithin(visited, order, hits, cur.hops + 1, other);
        // A recorded id is replaced only by a shorter path; SeenWithin shows there never is one.
        if other !in visited || visited[other].0 > cur.hops + 1 {
          var hit := Hit(other, cur.hops + 1, path);
          RecordNew(visited, order, hits, hit);
          AppendSlice(frontier0, hits0, hits, hit);
          order := if other in visited then order else order + [other];
          visited := visited[other := (cur.hops + 1, path)];
          frontier := frontier + [hit];
          hits := hits + [hit];
        }
      }
      AbsorbNothing(dir, cur, out, hits);
    }

    /** Turn the dictionary into the answer, in insertion order, dropping ids that are not nodes. */
    method CollectVisited(visited: map<string, (nat, seq<Dependency>)>, order: seq<string>, ghost hits: seq<Hit>)
      returns (r: seq<Reached>)
      requires Records(visited, order, hits)
      ensures r == Attach(nodes, hits[1..])
    {
      r := [];
      for n := 0 to |order|
        invariant r == Attach(nodes, hits[1..n + 1])
      {
        assert RecordAt(visited, order, hits, n);
        assert hits[1..n + 2][..n] == hits[1..n + 1];
        assert hits[1..n + 2][n] == hits[n + 1];
        if order[n] in nodes {
          r := r + [Reached(nodes[order[n]], visited[order[n]].0, visited[order[n]].1)];
        }
      }
      assert hits[1..|order| + 1] == hits[1..];
    }
  }

  /** Popping the head and appending the new entries keeps the frontier a suffix of all entries. */
  lemma PopSlice(hits: seq<Hit>, more: seq<Hit>, i: nat)
    requires hits <= more && i < |hits|
    ensures hits[i..][1..] + more[|hits|..] == more[i + 1..]
    ensures more == hits ==> hits[i..][1..] == more[i + 1..]
  {
    assert more == hits + more[|hits|..];
  }

  lemma AppendSlice(frontier: seq<Hit>, base: seq<Hit>, hits: seq<Hit>, hit: Hit)
    requires base <= hits
    ensures base <= hits + [hit]
    ensures frontier + (hits + [hit])[|base|..] == frontier + hits[|base|..] + [hit]
  {
    assert (hits + [hit])[|base|..] == hits[|base|..] + [hit];
  }

  lemma AbsorbNothing(dir: Direction, cur: Hit, out: seq<Dependency>, hits: seq<Hit>)
    ensures Absorb(dir, cur, out[|out|..], hits) == hits
  {
  }

  lemma AbsorbHead(dir: Direction, cur: Hit, out: seq<Dependency>, n: nat, hits: seq<Hit>)
    requires n < |out|
    ensures Absorb(dir, cur, out[n..], hits) ==
            var x := Far(dir, out[n]);
            Absorb(dir, cur, out[n + 1..],
                   if x in Seen(hits) then hits else hits + [Hit(x, cur.hops + 1, cur.via + [out[n]])])
  {
    assert out[n..][0] == out[n] && out[n..][1..] == out[n + 1..];
  }

  /** The dictionary and its key order hold exactly the reported entries, in order. */
  ghost predicate Records(visited: map<string, (nat, seq<Dependency>)>, order: seq<string>, hits: seq<Hit>) {
    && |hits| == |order| + 1
    && visited.Keys == Seen(hits)
    && forall j :: 0 <= j < |order| ==> RecordAt(visited, order, hits, j)
  }

  ghost predicate RecordAt(visited: map<string, (nat, seq<Dependency>)>, order: seq<string>, hits: seq<Hit>, j: nat)
    requires j < |order| && |hits| == |order| + 1
  {
    && hits[j + 1].id == order[j]
    && order[j] in visited
    && visited[order[j]] == (hits[j + 1].hops, hits[j + 1].via)
  }

  /** A recorded id is at most as far as the current layer, so it is never improved. */
  lemma SeenWithin(visited: map<string, (nat, seq<Dependency>)>, order: seq<string>, hits: seq<Hit>, h: nat, x: string)
    requires Records(visited, order, hits) && AllWithin(hits, h)
    ensures x in Seen(hits) <==> x in visited
    ensures x in visited ==> visited[x].0 <= h
  {
    if x in visited {
      SeenIs(hits, x);
      var j :| 1 <= j < |hits| && hits[j].id == x;
      assert RecordAt(visited, order, hits, j - 1);
    }
  }

  lemma RecordNew(visited: map<string, (nat, seq<Dependency>)>, order: seq<string>, hits: seq<Hit>, hit: Hit)
    requires Records(visited, order, hits) && hit.id !in visited
    ensures Records(visited[hit.id := (hit.hops, hit.via)], order + [hit.id], hits + [hit])
  {
    SeenAppend(hits, hit);
    var visited', order', hits' := visited[hit.id := (hit.hops, hit.via)], order + [hit.id], hits + [hit];
    forall j | 0 <= j < |order| ensures RecordAt(visited', order', hits', j) {
      assert RecordAt(visited, order, hits, j);
    }
  }
}
