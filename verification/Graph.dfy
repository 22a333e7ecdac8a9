/** The dependency graph, its two adjacency indexes and the bounded breadth-first traversal. */
module Dependencies {
  import opened Prelude

  datatype ResourceType =
    | Database | Schema | Table | Column | Index | View | Constraint | Application
    | Service | ApiEndpoint | DataPipeline | ReplicationTarget

  datatype Provenance =
    | DatabaseMetadata | ApplicationCode | QueryLog | Tracing | Manual | Configuration | Inferred

  datatype Node = Node(id: string, resourceType: ResourceType, name: string, metadata: map<string, Value>)

  /** An edge: `sourceId` depends on `targetId`. */
  datatype Dependency = Dependency(
    sourceId: string,
    targetId: string,
    relationship: string,
    source: Provenance,
    confidence: real,
    lastObserved: Option<Timestamp>,
    metadata: map<string, Value>)

  /** Which index a traversal follows. */
  datatype Direction = Outgoing | Incoming

  function Near(dir: Direction, e: Dependency): string {
    if dir == Outgoing then e.sourceId else e.targetId
  }

  function Far(dir: Direction, e: Dependency): string {
    if dir == Outgoing then e.targetId else e.sourceId
  }

  function Opposite(dir: Direction): Direction {
    if dir == Outgoing then Incoming else Outgoing
  }

  /** The abstract value of a graph: its nodes and its edges in insertion order. */
  datatype Network = Network(nodes: map<string, Node>, edges: seq<Dependency>) {
    ghost predicate WellFormed() {
      && (forall e :: e in edges ==> e.sourceId in nodes && e.targetId in nodes)
      && (forall id :: id in nodes ==> nodes[id].id == id)
    }
  }

  /** The edges leaving `id` in direction `dir`, in insertion order. */
  function Incident(edges: seq<Dependency>, dir: Direction, id: string): (r: seq<Dependency>)
    ensures forall e :: e in r <==> e in edges && Near(dir, e) == id
  {
    if edges == [] then
      []
    else
      var n := |edges| - 1;
      assert edges == edges[..n] + [edges[n]];
      Incident(edges[..n], dir, id) + (if Near(dir, edges[n]) == id then [edges[n]] else [])
  }

  // ---------------------------------------------------------------------------
  // Walks: the reference definition of reachability
  // ---------------------------------------------------------------------------

  /** `w` is a connected chain of edges from `a` to `b`. */
  ghost predicate IsWalk(edges: seq<Dependency>, dir: Direction, a: string, b: string, w: seq<Dependency>)
    decreases |w|
  {
    if w == [] then
      a == b
    else
      var e := w[|w| - 1];
      e in edges && Far(dir, e) == b && IsWalk(edges, dir, a, Near(dir, e), w[..|w| - 1])
  }

  ghost predicate HasWalk(edges: seq<Dependency>, dir: Direction, a: string, b: string, n: nat) {
    exists w :: |w| == n && IsWalk(edges, dir, a, b, w)
  }

  /** `n` is the length of the shortest non-empty walk from `a` to `b`. */
  ghost predicate IsDistance(edges: seq<Dependency>, dir: Direction, a: string, b: string, n: nat) {
    && 1 <= n
    && HasWalk(edges, dir, a, b, n)
    && forall m :: 1 <= m < n ==> !HasWalk(edges, dir, a, b, m)
  }

  // ---------------------------------------------------------------------------
  // The traversal as a function
  // ---------------------------------------------------------------------------

  /** One discovered id, the number of hops to it and the path it was discovered by. */
  datatype Hit = Hit(id: string, hops: nat, via: seq<Dependency>)

  /** The ids reported so far; position 0 is the start, which is not reported by itself. */
  function Seen(hits: seq<Hit>): set<string> {
    if |hits| <= 1 then {} else Seen(hits[..|hits| - 1]) + {hits[|hits| - 1].id}
  }

  lemma {:induction false} SeenIs(hits: seq<Hit>, x: string)
    ensures x in Seen(hits) <==> exists j :: 1 <= j < |hits| && hits[j].id == x
  {
    if |hits| > 1 {
      var n := |hits| - 1;
      SeenIs(hits[..n], x);
      if j :| 1 <= j < |hits| && hits[j].id == x {
        assert j < n ==> hits[..n][j] == hits[j];
      }
    }
  }

  lemma SeenAppend(hits: seq<Hit>, hit: Hit)
    requires |hits| > 0
    ensures Seen(hits + [hit]) == Seen(hits) + {hit.id}
  {
    assert (hits + [hit])[..|hits|] == hits;
  }

  function Ends(edges: seq<Dependency>, dir: Direction): set<string> {
    set e | e in edges :: Far(dir, e)
  }

  /** Discover the far ends of `out`, skipping the ones already reported. */
  function Absorb(dir: Direction, cur: Hit, out: seq<Dependency>, hits: seq<Hit>): seq<Hit>
    decreases |out|
  {
    if out == [] then
      hits
    else
      var x := Far(dir, out[0]);
      var more := if x in Seen(hits) then hits else hits + [Hit(x, cur.hops + 1, cur.via + [out[0]])];
      Absorb(dir, cur, out[1..], more)
  }

  /** A reported entry records a walk from the start, of the length it states and within the bound. */
  ghost predicate SoundHit(edges: seq<Dependency>, dir: Direction, start: string, k: int, hit: Hit) {
    && IsWalk(edges, dir, start, hit.id, hit.via)
    && 1 <= hit.hops == |hit.via| <= k
    && hit.id in Ends(edges, dir)
  }

  ghost predicate SoundHits(edges: seq<Dependency>, dir: Direction, start: string, k: int, hits: seq<Hit>) {
    && |hits| > 0
    && hits[0] == Hit(start, 0, [])
    && forall j {:trigger SoundHit(edges, dir, start, k, hits[j])} ::
         1 <= j < |hits| ==> SoundHit(edges, dir, start, k, hits[j])
  }

  ghost predicate Apart(hits: seq<Hit>, i: nat, j: nat)
    requires i < |hits| && j < |hits|
  {
    hits[i].id != hits[j].id
  }

  ghost predicate DistinctHits(hits: seq<Hit>) {
    forall i, j :: 1 <= i < j < |hits| ==> Apart(hits, i, j)
  }

  ghost predicate Ordered(hits: seq<Hit>, i: nat, j: nat)
    requires i < |hits| && j < |hits|
  {
    hits[i].hops <= hits[j].hops
  }

  ghost predicate SortedHits(hits: seq<Hit>) {
    forall i, j :: 0 <= i < j < |hits| ==> Ordered(hits, i, j)
  }

  ghost predicate AllWithin(hits: seq<Hit>, h: int) {
    forall j :: 0 <= j < |hits| ==> hits[j].hops <= h
  }

  ghost predicate Reported(hits: seq<Hit>, x: string, h: int) {
    exists m :: 1 <= m < |hits| && hits[m].id == x && hits[m].hops <= h
  }

  /** If `e` leaves entry `j` and the bound allows another hop, its far end is reported in time. */
  ghost predicate Covered(edges: seq<Dependency>, dir: Direction, k: int, hits: seq<Hit>, j: nat, e: Dependency)
    requires j < |hits|
  {
    e in edges && hits[j].hops < k && Near(dir, e) == hits[j].id ==> Reported(hits, Far(dir, e), hits[j].hops + 1)
  }

  /** Every edge out of an entry before position `i` leads to an entry at most one hop further. */
  ghost predicate ClosedBefore(edges: seq<Dependency>, dir: Direction, k: int, hits: seq<Hit>, i: nat) {
    forall j, e :: 0 <= j < i && j < |hits| ==> Covered(edges, dir, k, hits, j, e)
  }

  /** The state between two pops of the frontier; the frontier is `hits[i..]`. */
  ghost predicate Exploring(edges: seq<Dependency>, dir: Direction, start: string, k: int, hits: seq<Hit>, i: nat) {
    && i <= |hits|
    && SoundHits(edges, dir, start, k, hits)
    && DistinctHits(hits)
    && SortedHits(hits)
    && (i < |hits| ==> AllWithin(hits, hits[i].hops + 1))
    && ClosedBefore(edges, dir, k, hits, i)
  }

  lemma HitsBounded(edges: seq<Dependency>, dir: Direction, start: string, k: int, hits: seq<Hit>)
    requires SoundHits(edges, dir, start, k, hits) && DistinctHits(hits)
    ensures |hits| <= |Ends(edges, dir)| + 1
  {
    DistinctCount(hits);
    forall x | x in Seen(hits) ensures x in Ends(edges, dir) {
      SeenIs(hits, x);
      var j :| 1 <= j < |hits| && hits[j].id == x;
      assert SoundHit(edges, dir, start, k, hits[j]);
    }
    SubsetSize(Seen(hits), Ends(edges, dir));
  }

  lemma {:induction false} DistinctCount(hits: seq<Hit>)
    requires DistinctHits(hits) && |hits| > 0
    ensures |Seen(hits)| == |hits| - 1
  {
    if |hits| > 1 {
      var n := |hits| - 1;
      forall i, j | 1 <= i < j < n ensures Apart(hits[..n], i, j) {
        assert Apart(hits, i, j);
      }
      DistinctCount(hits[..n]);
      SeenIs(hits[..n], hits[n].id);
      forall j | 1 <= j < n ensures hits[..n][j].id != hits[n].id {
        assert Apart(hits, j, n);
      }
    }
  }

  lemma {:induction false} SubsetSize<T>(a: set<T>, b: set<T>)
    requires a <= b
    ensures |a| <= |b|
  {
    if a != {} {
      var x :| x in a;
      SubsetSize(a - {x}, b - {x});
    }
  }

  /** What absorbing edges of the entry at the head of the frontier keeps. */
  ghost predicate Absorbing(edges: seq<Dependency>, dir: Direction, start: string, k: int, hits: seq<Hit>, i: nat) {
    && i < |hits|
    && hits[i].hops < k
    && SoundHits(edges, dir, start, k, hits)
    && DistinctHits(hits)
    && SortedHits(hits)
    && AllWithin(hits, hits[i].hops + 1)
    && ClosedBefore(edges, dir, k, hits, i)
  }

  lemma AbsorbOneSound(edges: seq<Dependency>, dir: Direction, start: string, k: int, hits: seq<Hit>, i: nat, e: Dependency)
    requires i < |hits| && SoundHits(edges, dir, start, k, hits) && hits[i].hops < k
    requires e in edges && Near(dir, e) == hits[i].id
    ensures SoundHit(edges, dir, start, k, Hit(Far(dir, e), hits[i].hops + 1, hits[i].via + [e]))
  {
    var w := hits[i].via + [e];
    assert w[..|w| - 1] == hits[i].via;
    assert i == 0 || SoundHit(edges, dir, start, k, hits[i]);
  }

  lemma ClosedStays(edges: seq<Dependency>, dir: Direction, k: int, hits: seq<Hit>, more: seq<Hit>, i: nat)
    requires hits <= more && i <= |hits| && ClosedBefore(edges, dir, k, hits, i)
    ensures ClosedBefore(edges, dir, k, more, i)
  {
    forall j, e | 0 <= j < i
      ensures Covered(edges, dir, k, more, j, e)
    {
      assert more[j] == hits[j] && Covered(edges, dir, k, hits, j, e);
      if e in edges && hits[j].hops < k && Near(dir, e) == hits[j].id {
        ReportedStays(hits, more, Far(dir, e), hits[j].hops + 1);
      }
    }
  }

  lemma AbsorbOne(edges: seq<Dependency>, dir: Direction, start: string, k: int, hits: seq<Hit>, i: nat, e: Dependency)
    requires Absorbing(edges, dir, start, k, hits, i)
    requires e in edges && Near(dir, e) == hits[i].id
    requires Far(dir, e) !in Seen(hits)
    ensures Absorbing(edges, dir, start, k,
                      hits + [Hit(Far(dir, e), hits[i].hops + 1, hits[i].via + [e])], i)
  {
    var more := hits + [Hit(Far(dir, e), hits[i].hops + 1, hits[i].via + [e])];
    AbsorbOneSound(edges, dir, start, k, hits, i, e);
    ClosedStays(edges, dir, k, hits, more, i);
    forall j | 1 <= j < |more| ensures SoundHit(edges, dir, start, k, more[j]) {
      assert j < |hits| ==> SoundHit(edges, dir, start, k, hits[j]);
    }
    forall p, q | 1 <= p < q < |more| ensures Apart(more, p, q) {
      if q < |hits| {
        assert Apart(hits, p, q);
      } else {
        SeenIs(hits, hits[p].id);
      }
    }
    forall p, q | 0 <= p < q < |more| ensures Ordered(more, p, q) {
      if q < |hits| {
        assert Ordered(hits, p, q);
      }
    }
  }

  lemma {:induction false} AbsorbKeeps(edges: seq<Dependency>, dir: Direction, start: string, k: int,
                                       hits: seq<Hit>, i: nat, out: seq<Dependency>)
    requires Absorbing(edges, dir, start, k, hits, i)
    requires forall e :: e in out ==> e in edges && Near(dir, e) == hits[i].id
    ensures hits <= Absorb(dir, hits[i], out, hits)
    ensures Absorbing(edges, dir, start, k, Absorb(dir, hits[i], out, hits), i)
    decreases |out|
  {
    if out != [] {
      var e := out[0];
      if Far(dir, e) in Seen(hits) {
        AbsorbKeeps(edges, dir, start, k, hits, i, out[1..]);
      } else {
        var more := hits + [Hit(Far(dir, e), hits[i].hops + 1, hits[i].via + [e])];
        AbsorbOne(edges, dir, start, k, hits, i, e);
        assert more[i] == hits[i];
        AbsorbKeeps(edges, dir, start, k, more, i, out[1..]);
      }
    }
  }

  lemma {:induction false} AbsorbReports(dir: Direction, cur: Hit, out: seq<Dependency>, hits: seq<Hit>)
    requires |hits| > 0 && AllWithin(hits, cur.hops + 1)
    ensures hits <= Absorb(dir, cur, out, hits)
    ensures forall e :: e in out ==> Reported(Absorb(dir, cur, out, hits), Far(dir, e), cur.hops + 1)
    decreases |out|
  {
    hide Reported, AllWithin, Seen, Far;
    if out != [] {
      assert forall e :: e in out ==> e == out[0] || e in out[1..];
      var x := Far(dir, out[0]);
      var more := if x in Seen(hits) then hits else hits + [Hit(x, cur.hops + 1, cur.via + [out[0]])];
      ReportedNow(cur, out[0], x, hits, more);
      AbsorbReports(dir, cur, out[1..], more);
      ReportedStays(more, Absorb(dir, cur, out[1..], more), x, cur.hops + 1);
    }
  }

  lemma ReportedNow(cur: Hit, e: Dependency, x: string, hits: seq<Hit>, more: seq<Hit>)
    requires |hits| > 0 && AllWithin(hits, cur.hops + 1)
    requires more == if x in Seen(hits) then hits else hits + [Hit(x, cur.hops + 1, cur.via + [e])]
    ensures hits <= more && AllWithin(more, cur.hops + 1) && Reported(more, x, cur.hops + 1)
  {
    if x in Seen(hits) {
      SeenIs(hits, x);
    } else {
      assert more[|hits|].id == x;
    }
  }

  lemma ReportedStays(hits: seq<Hit>, more: seq<Hit>, x: string, h: int)
    requires hits <= more && Reported(hits, x, h)
    ensures Reported(more, x, h)
  {
    var m :| 1 <= m < |hits| && hits[m].id == x && hits[m].hops <= h;
    assert more[m] == hits[m];
  }

  /** One pop of the frontier keeps the exploration state. */
  lemma PopKeeps(edges: seq<Dependency>, dir: Direction, start: string, k: int, hits: seq<Hit>, i: nat)
    requires Exploring(edges, dir, start, k, hits, i) && i < |hits|
    ensures hits[i].hops >= k ==> Exploring(edges, dir, start, k, hits, i + 1)
    ensures hits[i].hops < k ==>
              var more := Absorb(dir, hits[i], Incident(edges, dir, hits[i].id), hits);
              hits <= more && Exploring(edges, dir, start, k, more, i + 1)
    ensures i <= |Ends(edges, dir)|
  {
    HitsBounded(edges, dir, start, k, hits);
    if hits[i].hops < k {
      var out := Incident(edges, dir, hits[i].id);
      AbsorbKeeps(edges, dir, start, k, hits, i, out);
      AbsorbReports(dir, hits[i], out, hits);
      PopCloses(edges, dir, k, Absorb(dir, hits[i], out, hits), i, out);
      NextLayer(Absorb(dir, hits[i], out, hits), i);
    } else {
      NextLayer(hits, i);
      forall e ensures Covered(edges, dir, k, hits, i, e) {
      }
    }
  }

  lemma NextLayer(hits: seq<Hit>, i: nat)
    requires i < |hits| && SortedHits(hits) && AllWithin(hits, hits[i].hops + 1)
    ensures i + 1 < |hits| ==> AllWithin(hits, hits[i + 1].hops + 1)
  {
    assert i + 1 < |hits| ==> Ordered(hits, i, i + 1);
  }

  lemma PopCloses(edges: seq<Dependency>, dir: Direction, k: int, hits: seq<Hit>, i: nat, out: seq<Dependency>)
    requires i < |hits| && ClosedBefore(edges, dir, k, hits, i)
    requires out == Incident(edges, dir, hits[i].id)
    requires forall e :: e in out ==> Reported(hits, Far(dir, e), hits[i].hops + 1)
    ensures ClosedBefore(edges, dir, k, hits, i + 1)
  {
    forall j, e | 0 <= j < i + 1
      ensures Covered(edges, dir, k, hits, j, e)
    {
      if j == i {
        assert e in edges && Near(dir, e) == hits[i].id ==> e in out;
      }
    }
  }

  /** Run the frontier to exhaustion. */
  function Explore(edges: seq<Dependency>, dir: Direction, start: string, k: int, hits: seq<Hit>, i: nat): (r: seq<Hit>)
    requires Exploring(edges, dir, start, k, hits, i)
    ensures Exploring(edges, dir, start, k, r, |r|)
    decreases |Ends(edges, dir)| + 1 - i
  {
    if i == |hits| then
      hits
    else
      PopKeeps(edges, dir, start, k, hits, i);
      if hits[i].hops >= k then
        Explore(edges, dir, start, k, hits, i + 1)
      else
        Explore(edges, dir, start, k, Absorb(dir, hits[i], Incident(edges, dir, hits[i].id), hits), i + 1)
  }

  /** One turn of the frontier loop, and why the loop ends. */
  lemma ExploreStep(edges: seq<Dependency>, dir: Direction, start: string, k: int, hits: seq<Hit>, i: nat)
    returns (more: seq<Hit>)
    requires Exploring(edges, dir, start, k, hits, i) && i < |hits|
    ensures more == if hits[i].hops >= k then hits else Absorb(dir, hits[i], Incident(edges, dir, hits[i].id), hits)
    ensures hits <= more && AllWithin(hits, hits[i].hops + 1)
    ensures Exploring(edges, dir, start, k, more, i + 1)
    ensures Explore(edges, dir, start, k, hits, i) == Explore(edges, dir, start, k, more, i + 1)
    ensures i <= |Ends(edges, dir)| && i < |more|
  {
    PopKeeps(edges, dir, start, k, hits, i);
    more := if hits[i].hops >= k then hits else Absorb(dir, hits[i], Incident(edges, dir, hits[i].id), hits);
  }

  /** Every entry of the finished traversal, the start included at position 0. */
  function Discovery(edges: seq<Dependency>, dir: Direction, start: string, k: int): (r: seq<Hit>)
    ensures Exploring(edges, dir, start, k, r, |r|)
  {
    Explore(edges, dir, start, k, [Hit(start, 0, [])], 0)
  }

  /** Everything discovered from `start`, in discovery order. */
  function Discover(edges: seq<Dependency>, dir: Direction, start: string, k: int): seq<Hit> {
    Discovery(edges, dir, start, k)[1..]
  }

  lemma ExploreStart(edges: seq<Dependency>, dir: Direction, start: string, k: int)
    ensures Exploring(edges, dir, start, k, [Hit(start, 0, [])], 0)
    ensures Discovery(edges, dir, start, k) == Explore(edges, dir, start, k, [Hit(start, 0, [])], 0)
  {
  }

  lemma ExploreEnd(edges: seq<Dependency>, dir: Direction, start: string, k: int, hits: seq<Hit>, i: nat)
    requires Exploring(edges, dir, start, k, hits, i) && i == |hits|
    ensures Explore(edges, dir, start, k, hits, i) == hits
  {
  }

  // ---------------------------------------------------------------------------
  // What the traversal returns
  // ---------------------------------------------------------------------------

  /** A closed exploration reports every walk within the bound, at no more hops than the walk has. */
  lemma {:induction false} WalkIsReported(edges: seq<Dependency>, dir: Direction, start: string, k: int,
                                          hits: seq<Hit>, x: string, w: seq<Dependency>)
    requires Exploring(edges, dir, start, k, hits, |hits|)
    requires IsWalk(edges, dir, start, x, w) && 1 <= |w| <= k
    ensures Reported(hits, x, |w|)
    decreases |w|
  {
    var e := w[|w| - 1];
    var v := w[..|w| - 1];
    var j: nat := 0;
    if v != [] {
      WalkIsReported(edges, dir, start, k, hits, Near(dir, e), v);
      j :| 1 <= j < |hits| && hits[j].id == Near(dir, e) && hits[j].hops <= |v|;
    }
    assert Covered(edges, dir, k, hits, j, e);
  }

  /** The traversal reports `x` at `h` hops. */
  ghost predicate Reports(edges: seq<Dependency>, dir: Direction, start: string, k: int, x: string, h: nat) {
    exists i :: 0 <= i < |Discover(edges, dir, start, k)|
             && Discover(edges, dir, start, k)[i].id == x && Discover(edges, dir, start, k)[i].hops == h
  }

  /** No walk is shorter than the hop count reported for its end. */
  lemma ReportedIsShortest(edges: seq<Dependency>, dir: Direction, start: string, k: int, hits: seq<Hit>, i: nat, m: nat)
    requires Exploring(edges, dir, start, k, hits, |hits|)
    requires 1 <= i < |hits| && 1 <= m && HasWalk(edges, dir, start, hits[i].id, m)
    ensures hits[i].hops <= m
  {
    assert SoundHit(edges, dir, start, k, hits[i]);
    if m <= k {
      var w :| |w| == m && IsWalk(edges, dir, start, hits[i].id, w);
      WalkIsReported(edges, dir, start, k, hits, hits[i].id, w);
      OnlyReport(hits, i, m);
    }
  }

  lemma OnlyReport(hits: seq<Hit>, i: nat, m: int)
    requires DistinctHits(hits) && 1 <= i < |hits| && Reported(hits, hits[i].id, m)
    ensures hits[i].hops <= m
  {
    var q :| 1 <= q < |hits| && hits[q].id == hits[i].id && hits[q].hops <= m;
    assert q < i ==> Apart(hits, q, i);
    assert i < q ==> Apart(hits, i, q);
  }

  /** The traversal reports `x` at `h` hops exactly when `h` is within the bound and is the distance to `x`. */
  lemma DiscoverIsExact(edges: seq<Dependency>, dir: Direction, start: string, k: int, x: string, h: nat)
    ensures Reports(edges, dir, start, k, x, h) <==> (h <= k && IsDistance(edges, dir, start, x, h))
  {
    if Reports(edges, dir, start, k, x, h) {
      var r := Discover(edges, dir, start, k);
      var i :| 0 <= i < |r| && r[i].id == x && r[i].hops == h;
      EntryIsDistance(edges, dir, start, k, Discovery(edges, dir, start, k), i + 1);
    }
    if h <= k && IsDistance(edges, dir, start, x, h) {
      DistanceIsReported(edges, dir, start, k, x, h);
    }
  }

  lemma EntryIsDistance(edges: seq<Dependency>, dir: Direction, start: string, k: int, all: seq<Hit>, i: nat)
    requires Exploring(edges, dir, start, k, all, |all|) && 1 <= i < |all|
    ensures all[i].hops <= k && IsDistance(edges, dir, start, all[i].id, all[i].hops)
  {
    assert SoundHit(edges, dir, start, k, all[i]);
    assert HasWalk(edges, dir, start, all[i].id, all[i].hops);
    forall m: nat | 1 <= m < all[i].hops ensures !HasWalk(edges, dir, start, all[i].id, m) {
      if HasWalk(edges, dir, start, all[i].id, m) {
        ReportedIsShortest(edges, dir, start, k, all, i, m);
      }
    }
  }

  lemma DistanceIsReported(edges: seq<Dependency>, dir: Direction, start: string, k: int, x: string, h: nat)
    requires h <= k && IsDistance(edges, dir, start, x, h)
    ensures Reports(edges, dir, start, k, x, h)
  {
    var all := Discovery(edges, dir, start, k);
    var w :| |w| == h && IsWalk(edges, dir, start, x, w);
    WalkIsReported(edges, dir, start, k, all, x, w);
    var q :| 1 <= q < |all| && all[q].id == x && all[q].hops <= h;
    assert SoundHit(edges, dir, start, k, all[q]);
    assert HasWalk(edges, dir, start, x, all[q].hops);
    assert all[q] == Discover(edges, dir, start, k)[q - 1];
  }

  /** No id is reported twice, and each path is a chain of edges from the start to the id it is reported for. */
  lemma DiscoverIsSound(edges: seq<Dependency>, dir: Direction, start: string, k: int)
    ensures var r := Discover(edges, dir, start, k);
            && (forall i, j :: 0 <= i < j < |r| ==> r[i].id != r[j].id && r[i].hops <= r[j].hops)
            && (forall i :: 0 <= i < |r| ==> SoundHit(edges, dir, start, k, r[i]))
  {
    TailIsSound(edges, dir, start, k, Discovery(edges, dir, start, k));
  }

  lemma TailIsSound(edges: seq<Dependency>, dir: Direction, start: string, k: int, all: seq<Hit>)
    requires SoundHits(edges, dir, start, k, all) && DistinctHits(all) && SortedHits(all)
    ensures var r := all[1..];
            && (forall i, j :: 0 <= i < j < |r| ==> r[i].id != r[j].id && r[i].hops <= r[j].hops)
            && (forall i :: 0 <= i < |r| ==> SoundHit(edges, dir, start, k, r[i]))
  {
    var r := all[1..];
    forall i | 0 <= i < |r| ensures SoundHit(edges, dir, start, k, r[i]) {
      assert SoundHit(edges, dir, start, k, all[i + 1]);
    }
    forall i, j | 0 <= i < j < |r| ensures r[i].id != r[j].id && r[i].hops <= r[j].hops {
      assert Apart(all, i + 1, j + 1) && Ordered(all, i + 1, j + 1);
    }
  }

  // ---------------------------------------------------------------------------
  // Duality
  // ---------------------------------------------------------------------------

  /** Prepending an edge to a walk. */
  lemma {:induction false} PrependEdge(edges: seq<Dependency>, dir: Direction, e: Dependency, b: string, w: seq<Dependency>)
    requires e in edges && IsWalk(edges, dir, Far(dir, e), b, w)
    ensures IsWalk(edges, dir, Near(dir, e), b, [e] + w)
    decreases |w|
  {
    var all := [e] + w;
    if w == [] {
      assert all[..0] == [];
    } else {
      assert all[..|all| - 1] == [e] + w[..|w| - 1];
      PrependEdge(edges, dir, e, Near(dir, w[|w| - 1]), w[..|w| - 1]);
    }
  }

  lemma {:induction false} ReverseWalk(edges: seq<Dependency>, dir: Direction, a: string, b: string, w: seq<Dependency>)
    returns (v: seq<Dependency>)
    requires IsWalk(edges, dir, a, b, w)
    ensures |v| == |w| && IsWalk(edges, Opposite(dir), b, a, v)
    decreases |w|
  {
    if w == [] {
      v := [];
    } else {
      var e := w[|w| - 1];
      var u := ReverseWalk(edges, dir, a, Near(dir, e), w[..|w| - 1]);
      PrependEdge(edges, Opposite(dir), e, a, u);
      v := [e] + u;
    }
  }

  lemma HasWalkReversed(edges: seq<Dependency>, dir: Direction, a: string, b: string, n: nat)
    ensures HasWalk(edges, dir, a, b, n) <==> HasWalk(edges, Opposite(dir), b, a, n)
  {
    if w :| |w| == n && IsWalk(edges, dir, a, b, w) {
      var v := ReverseWalk(edges, dir, a, b, w);
    }
    if w :| |w| == n && IsWalk(edges, Opposite(dir), b, a, w) {
      var v := ReverseWalk(edges, Opposite(dir), b, a, w);
    }
  }

  /** `x` is downstream of `y` at `h` hops exactly when `y` is upstream of `x` at `h` hops. */
  lemma Duality(edges: seq<Dependency>, x: string, y: string, k: int, h: nat)
    ensures Reports(edges, Incoming, y, k, x, h) <==> Reports(edges, Outgoing, x, k, y, h)
  {
    DiscoverIsExact(edges, Incoming, y, k, x, h);
    DiscoverIsExact(edges, Outgoing, x, k, y, h);
    forall n: nat ensures HasWalk(edges, Incoming, y, x, n) <==> HasWalk(edges, Outgoing, x, y, n) {
      HasWalkReversed(edges, Incoming, y, x, n);
    }
  }
}
