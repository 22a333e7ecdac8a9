/** What a change could reach: the traversal folded over every changed resource, without repeats. */
module BlastRadii {
  import opened Prelude
  import opened Reals
  import opened Dependencies
  import opened DependencyGraphs

  datatype Impact = Direct | Downstream | Upstream
  datatype Criticality = Critical | Standard | Unknown
  datatype Scope = Narrow | Moderate | Wide | Extensive

  datatype AffectedResource = AffectedResource(
    resource: Node,
    impact: Impact,
    hops: nat,
    criticality: Criticality,
    production: bool,
    via: seq<Dependency>)

  /** The name rollups are sorted, repeat-free lists in the program; here they are the sets they list. */
  datatype BlastRadius = BlastRadius(
    direct: seq<AffectedResource>,
    downstream: seq<AffectedResource>,
    upstream: seq<AffectedResource>,
    services: set<string>,
    databases: set<string>,
    tables: set<string>,
    apis: set<string>,
    pipelines: set<string>,
    critical: set<string>,
    scope: Scope,
    confidence: real)

  function CriticalityOf(node: Node): Criticality {
    if "critical" in node.metadata then
      if Truthy(node.metadata["critical"]) then Critical else Standard
    else
      Unknown
  }

  function IsProduction(node: Node): bool {
    "production" in node.metadata ==> Truthy(node.metadata["production"])
  }

  function Describe(node: Node, impact: Impact, hops: nat, via: seq<Dependency>): AffectedResource {
    AffectedResource(node, impact, hops, CriticalityOf(node), IsProduction(node), via)
  }

  // ---------------------------------------------------------------------------
  // The multi-source list
  // ---------------------------------------------------------------------------

  function Ids(list: seq<AffectedResource>): set<string> {
    if list == [] then {} else Ids(list[..|list| - 1]) + {list[|list| - 1].resource.id}
  }

  lemma {:induction false} IdsAre(list: seq<AffectedResource>, x: string)
    ensures x in Ids(list) <==> exists i :: 0 <= i < |list| && list[i].resource.id == x
  {
    if list != [] {
      var n := |list| - 1;
      IdsAre(list[..n], x);
      if i :| 0 <= i < |list| && list[i].resource.id == x {
        assert i < n ==> list[..n][i] == list[i];
      }
    }
  }

  lemma IdsAppend(list: seq<AffectedResource>, r: AffectedResource)
    ensures Ids(list + [r]) == Ids(list) + {r.resource.id}
  {
    assert (list + [r])[..|list|] == list;
  }

  /** Add the answer for one source to the list, skipping the source itself and what is already listed. */
  function Admit(reached: seq<Reached>, self: string, impact: Impact, list: seq<AffectedResource>): seq<AffectedResource>
    decreases |reached|
  {
    if reached == [] then
      list
    else
      var n := |reached| - 1;
      var most := Admit(reached[..n], self, impact, list);
      var r := reached[n];
      if r.node.id in Ids(most) || r.node.id == self then
        most
      else
        most + [Describe(r.node, impact, r.hops, r.via)]
  }

  /** The list for all sources, in order; ids that are not nodes contribute nothing. */
  function Collect(g: Network, dir: Direction, impact: Impact, ids: seq<string>, k: int): seq<AffectedResource>
    decreases |ids|
  {
    if ids == [] then
      []
    else
      var n := |ids| - 1;
      var most := Collect(g, dir, impact, ids[..n], k);
      if ids[n] in g.nodes then Admit(Reach(g, dir, ids[n], k), ids[n], impact, most) else most
  }

  function DirectImpact(g: Network, ids: seq<string>): seq<AffectedResource> {
    if ids == [] then
      []
    else
      var n := |ids| - 1;
      DirectImpact(g, ids[..n]) + (if ids[n] in g.nodes then [Describe(g.nodes[ids[n]], Direct, 0, [])] else [])
  }

  ghost predicate Lists(list: seq<AffectedResource>, x: string, h: nat) {
    exists i :: 0 <= i < |list| && list[i].resource.id == x && list[i].hops == h
  }

  ghost predicate DistinctIds(list: seq<AffectedResource>) {
    forall i, j :: 0 <= i < j < |list| ==> list[i].resource.id != list[j].resource.id
  }

  ghost predicate Answers(reached: seq<Reached>, x: string, h: nat) {
    exists i :: 0 <= i < |reached| && reached[i].node.id == x && reached[i].hops == h
  }

  ghost predicate DistinctAnswers(reached: seq<Reached>) {
    forall i, j :: 0 <= i < j < |reached| ==> reached[i].node.id != reached[j].node.id
  }

  lemma ListsAppend(list: seq<AffectedResource>, r: AffectedResource, x: string, h: nat)
    ensures Lists(list + [r], x, h) <==> Lists(list, x, h) || (r.resource.id == x && r.hops == h)
  {
    var more := list + [r];
    if Lists(list, x, h) {
      var i :| 0 <= i < |list| && list[i].resource.id == x && list[i].hops == h;
      assert more[i] == list[i];
    }
    if r.resource.id == x && r.hops == h {
      assert more[|list|] == r;
    }
  }

  lemma AnswersInit(reached: seq<Reached>, x: string, h: nat)
    requires reached != []
    ensures Answers(reached, x, h) <==>
            Answers(reached[..|reached| - 1], x, h)
            || (reached[|reached| - 1].node.id == x && reached[|reached| - 1].hops == h)
  {
    var n := |reached| - 1;
    if Answers(reached[..n], x, h) {
      var i :| 0 <= i < n && reached[..n][i].node.id == x && reached[..n][i].hops == h;
      assert reached[i] == reached[..n][i];
    }
    if Answers(reached, x, h) {
      var i :| 0 <= i < |reached| && reached[i].node.id == x && reached[i].hops == h;
      assert i < n ==> reached[..n][i] == reached[i];
    }
  }

  ghost predicate Answered(reached: seq<Reached>, x: string) {
    exists h: nat :: Answers(reached, x, h)
  }

  lemma AnsweredInit(reached: seq<Reached>, x: string)
    requires reached != []
    ensures Answered(reached, x) <==>
            Answered(reached[..|reached| - 1], x) || reached[|reached| - 1].node.id == x
  {
    var n := |reached| - 1;
    AnswersInit(reached, x, reached[n].hops);
    if Answered(reached, x) {
      var h: nat :| Answers(reached, x, h);
      AnswersInit(reached, x, h);
    }
    if Answered(reached[..n], x) {
      var h: nat :| Answers(reached[..n], x, h);
      AnswersInit(reached, x, h);
    }
  }

  /** After admitting one source, the listed ids are the old ones and its answers other than itself. */
  lemma {:induction false} AdmitIds(reached: seq<Reached>, self: string, impact: Impact, list: seq<AffectedResource>, x: string)
    ensures x in Ids(Admit(reached, self, impact, list)) <==> x in Ids(list) || (x != self && Answered(reached, x))
    decreases |reached|
  {
    if reached != [] {
      var n := |reached| - 1;
      AdmitIds(reached[..n], self, impact, list, x);
      AnsweredInit(reached, x);
      var r := reached[n];
      IdsAppend(Admit(reached[..n], self, impact, list), Describe(r.node, impact, r.hops, r.via));
    }
  }

  /** What one source adds: exactly its answers that are neither the source nor listed before. */
  lemma {:induction false} AdmitLists(reached: seq<Reached>, self: string, impact: Impact,
                                      list: seq<AffectedResource>, x: string, h: nat)
    requires DistinctAnswers(reached)
    ensures Lists(Admit(reached, self, impact, list), x, h) <==>
            Lists(list, x, h) || (x !in Ids(list) && x != self && Answers(reached, x, h))
    decreases |reached|
  {
    if reached != [] {
      var n := |reached| - 1;
      var r := reached[n];
      AdmitLists(reached[..n], self, impact, list, x, h);
      AdmitIds(reached[..n], self, impact, list, x);
      AnswersInit(reached, x, h);
      ListsAppend(Admit(reached[..n], self, impact, list), Describe(r.node, impact, r.hops, r.via), x, h);
      if r.node.id == x {
        NoEarlierAnswer(reached, x);
      }
    }
  }

  lemma NoEarlierAnswer(reached: seq<Reached>, x: string)
    requires reached != [] && DistinctAnswers(reached) && reached[|reached| - 1].node.id == x
    ensures !Answered(reached[..|reached| - 1], x)
  {
    var n := |reached| - 1;
    forall i | 0 <= i < n ensures reached[..n][i].node.id != x {
      assert reached[..n][i] == reached[i];
      assert reached[i].node.id != reached[n].node.id;
    }
  }

  lemma {:induction false} AdmitExtends(reached: seq<Reached>, self: string, impact: Impact, list: seq<AffectedResource>)
    ensures list <= Admit(reached, self, impact, list)
    ensures DistinctIds(list) ==> DistinctIds(Admit(reached, self, impact, list))
    decreases |reached|
  {
    if reached != [] {
      var n := |reached| - 1;
      AdmitExtends(reached[..n], self, impact, list);
      var most := Admit(reached[..n], self, impact, list);
      forall i | 0 <= i < |most| && reached[n].node.id !in Ids(most)
        ensures most[i].resource.id != reached[n].node.id
      {
        IdsAre(most, reached[n].node.id);
      }
    }
  }

  // ---------------------------------------------------------------------------
  // What the list contains
  // ---------------------------------------------------------------------------

  /** `id` is a node other than `x` that reaches `x` within the bound. */
  ghost predicate Serves(g: Network, dir: Direction, id: string, k: int, x: string) {
    id in g.nodes && id != x && exists n: nat :: n <= k && IsDistance(g.edges, dir, id, x, n)
  }

  /** Some source in the list reaches `x`. */
  ghost predicate Served(g: Network, dir: Direction, ids: seq<string>, k: int, x: string) {
    exists i :: 0 <= i < |ids| && Serves(g, dir, ids[i], k, x)
  }

  /** `h` is the distance to `x` from the first source, in list order, that reaches it. */
  ghost predicate FirstDistance(g: Network, dir: Direction, ids: seq<string>, k: int, x: string, h: nat) {
    exists i ::
      && 0 <= i < |ids|
      && Serves(g, dir, ids[i], k, x)
      && !Served(g, dir, ids[..i], k, x)
      && IsDistance(g.edges, dir, ids[i], x, h)
  }

  lemma ServedInit(g: Network, dir: Direction, ids: seq<string>, k: int, x: string)
    requires ids != []
    ensures Served(g, dir, ids, k, x) <==>
            Served(g, dir, ids[..|ids| - 1], k, x) || Serves(g, dir, ids[|ids| - 1], k, x)
  {
    var n := |ids| - 1;
    if Served(g, dir, ids[..n], k, x) {
      var i :| 0 <= i < n && Serves(g, dir, ids[..n][i], k, x);
      assert ids[i] == ids[..n][i];
    }
    if Served(g, dir, ids, k, x) {
      var i :| 0 <= i < |ids| && Serves(g, dir, ids[i], k, x);
      assert i < n ==> ids[..n][i] == ids[i];
    }
  }

  lemma FirstDistanceInit(g: Network, dir: Direction, ids: seq<string>, k: int, x: string, h: nat)
    requires ids != []
    ensures FirstDistance(g, dir, ids, k, x, h) <==>
            var n := |ids| - 1;
            || FirstDistance(g, dir, ids[..n], k, x, h)
            || (!Served(g, dir, ids[..n], k, x) && Serves(g, dir, ids[n], k, x) && IsDistance(g.edges, dir, ids[n], x, h))
  {
    var n := |ids| - 1;
    forall i | 0 <= i < n ensures ids[..n][..i] == ids[..i] && ids[..n][i] == ids[i] {
    }
  }

  /** On a well-formed graph the answer names `x` exactly when the source reaches it within the bound. */
  lemma AnswersAre(g: Network, dir: Direction, id: string, k: int, x: string, h: nat)
    requires g.WellFormed() && id in g.nodes && id != x
    ensures Answers(Reach(g, dir, id, k), x, h) <==> (h <= k && IsDistance(g.edges, dir, id, x, h))
    ensures Answered(Reach(g, dir, id, k), x) <==> Serves(g, dir, id, k, x)
    ensures IsDistance(g.edges, dir, id, x, h) && Serves(g, dir, id, k, x) ==> h <= k
  {
    ReachIsExact(g, dir, id, k, x, h);
    if Answered(Reach(g, dir, id, k), x) {
      var m: nat :| Answers(Reach(g, dir, id, k), x, m);
      ReachIsExact(g, dir, id, k, x, m);
    }
    if Serves(g, dir, id, k, x) {
      var m: nat :| m <= k && IsDistance(g.edges, dir, id, x, m);
      ReachIsExact(g, dir, id, k, x, m);
      assert Answers(Reach(g, dir, id, k), x, m);
    }
  }

  /** The listed ids are exactly the union over the sources of what each reaches, itself excluded. */
  lemma {:induction false} CollectIsUnion(g: Network, dir: Direction, impact: Impact, ids: seq<string>, k: int, x: string)
    requires g.WellFormed()
    ensures x in Ids(Collect(g, dir, impact, ids, k)) <==> Served(g, dir, ids, k, x)
    decreases |ids|
  {
    if ids != [] {
      var n := |ids| - 1;
      CollectIsUnion(g, dir, impact, ids[..n], k, x);
      ServedInit(g, dir, ids, k, x);
      if ids[n] in g.nodes {
        AdmitIds(Reach(g, dir, ids[n], k), ids[n], impact, Collect(g, dir, impact, ids[..n], k), x);
        if ids[n] != x {
          AnswersAre(g, dir, ids[n], k, x, 0);
        }
      }
    }
  }

  /** `x` is listed at `h` hops exactly when `h` is its distance from the first source that reaches it. */
  lemma {:induction false} CollectIsExact(g: Network, dir: Direction, impact: Impact, ids: seq<string>, k: int, x: string, h: nat)
    requires g.WellFormed()
    ensures Lists(Collect(g, dir, impact, ids, k), x, h) <==> FirstDistance(g, dir, ids, k, x, h)
    decreases |ids|
  {
    if ids != [] {
      var n := |ids| - 1;
      CollectIsExact(g, dir, impact, ids[..n], k, x, h);
      FirstDistanceInit(g, dir, ids, k, x, h);
      if ids[n] in g.nodes {
        var most := Collect(g, dir, impact, ids[..n], k);
        ReachIsSound(g, dir, ids[n], k);
        AdmitLists(Reach(g, dir, ids[n], k), ids[n], impact, most, x, h);
        CollectIsUnion(g, dir, impact, ids[..n], k, x);
        if ids[n] != x {
          AnswersAre(g, dir, ids[n], k, x, h);
        }
      }
    }
  }

  function Uses(source: string, target: string): Dependency {
    Dependency(source, target, "uses", Provenance.Configuration, 1.0, None, map[])
  }

  /** `x` uses `b`, and `b` uses `a`. */
  function Chain(): Network {
    var node := (id: string) => Node(id, ResourceType.Table, id, map[]);
    Network(map["a" := node("a"), "b" := node("b"), "x" := node("x")], [Uses("b", "a"), Uses("x", "b")])
  }

  lemma NoShortcut(w: seq<Dependency>)
    requires |w| == 1
    ensures !IsWalk(Chain().edges, Direction.Incoming, "a", "x", w)
  {
    var e := w[0];
    assert w[..0] == [];
    assert "a"[0] != "b"[0] && "b"[0] != "x"[0];
    assert e in Chain().edges ==> e == Uses("b", "a") || e == Uses("x", "b");
  }

  lemma ChainDistances()
    ensures var edges := Chain().edges;
            && IsDistance(edges, Direction.Incoming, "a", "x", 2)
            && !IsDistance(edges, Direction.Incoming, "a", "x", 1)
            && IsDistance(edges, Direction.Incoming, "b", "x", 1)
  {
    var edges := Chain().edges;
    var first, second := Uses("b", "a"), Uses("x", "b");
    assert [second][..0] == [] && [first][..0] == [] && [first, second][..1] == [first];
    assert IsWalk(edges, Direction.Incoming, "b", "x", [second]);
    assert IsWalk(edges, Direction.Incoming, "a", "b", [first]);
    assert IsWalk(edges, Direction.Incoming, "a", "x", [first, second]);
    assert HasWalk(edges, Direction.Incoming, "a", "x", 2);
    assert HasWalk(edges, Direction.Incoming, "b", "x", 1);
    forall w: seq<Dependency> | |w| == 1 ensures !IsWalk(edges, Direction.Incoming, "a", "x", w) {
      NoShortcut(w);
    }
  }

  /** A listed hop count is not the smallest: `x` is one hop from the changed `b`, yet listed at the two from `a`. */
  lemma FirstSourceCounts()
    ensures var list := Collect(Chain(), Direction.Incoming, Downstream, ["a", "b"], 4);
            Lists(list, "x", 2) && !Lists(list, "x", 1)
    ensures IsDistance(Chain().edges, Direction.Incoming, "b", "x", 1)
  {
    hide Collect, Lists, IsDistance, IsWalk;
    var ids := ["a", "b"];
    ChainDistances();
    assert ids[..0] == [] && ids[..1] == ["a"];
    assert "a"[0] != "x"[0];
    assert Serves(Chain(), Direction.Incoming, ids[0], 4, "x");
    assert Served(Chain(), Direction.Incoming, ids[..1], 4, "x");
    assert FirstDistance(Chain(), Direction.Incoming, ids, 4, "x", 2);
    assert !FirstDistance(Chain(), Direction.Incoming, ids, 4, "x", 1);
    CollectIsExact(Chain(), Direction.Incoming, Downstream, ids, 4, "x", 2);
    CollectIsExact(Chain(), Direction.Incoming, Downstream, ids, 4, "x", 1);
  }

  /** The list has no repeats, and the list for a prefix of the sources is a prefix of the list for all of them. */
  lemma {:induction false} CollectExtends(g: Network, dir: Direction, impact: Impact, ids: seq<string>, more: seq<string>, k: int)
    ensures DistinctIds(Collect(g, dir, impact, ids + more, k))
    ensures Collect(g, dir, impact, ids, k) <= Collect(g, dir, impact, ids + more, k)
    decreases |ids| + |more|
  {
    var all := ids + more;
    if more != [] {
      var n := |more| - 1;
      assert all[..|all| - 1] == ids + more[..n];
      CollectExtends(g, dir, impact, ids, more[..n], k);
      AdmitExtends(Reach(g, dir, more[n], k), more[n], impact, Collect(g, dir, impact, ids + more[..n], k));
    } else {
      assert all == ids;
      if ids != [] {
        var n := |ids| - 1;
        assert ids[..n] + [] == ids[..n];
        CollectExtends(g, dir, impact, ids[..n], [], k);
        AdmitExtends(Reach(g, dir, ids[n], k), ids[n], impact, Collect(g, dir, impact, ids[..n], k));
      }
    }
  }

  /** A listed entry describes a node of the graph, with a walk to it from the first source that reaches it. */
  ghost predicate Justified(g: Network, dir: Direction, impact: Impact, ids: seq<string>, k: int, r: AffectedResource) {
    && r.resource.id in g.nodes
    && r == Describe(g.nodes[r.resource.id], impact, r.hops, r.via)
    && 1 <= r.hops == |r.via| <= k
    && exists i ::
         && 0 <= i < |ids|
         && Serves(g, dir, ids[i], k, r.resource.id)
         && !Served(g, dir, ids[..i], k, r.resource.id)
         && IsWalk(g.edges, dir, ids[i], r.resource.id, r.via)
  }

  lemma JustifiedInit(g: Network, dir: Direction, impact: Impact, ids: seq<string>, k: int, r: AffectedResource)
    requires ids != [] && Justified(g, dir, impact, ids[..|ids| - 1], k, r)
    ensures Justified(g, dir, impact, ids, k, r)
  {
    var most := ids[..|ids| - 1];
    var i :| 0 <= i < |most| && Serves(g, dir, most[i], k, r.resource.id)
          && !Served(g, dir, most[..i], k, r.resource.id) && IsWalk(g.edges, dir, most[i], r.resource.id, r.via);
    assert most[i] == ids[i] && most[..i] == ids[..i];
  }

  /** Every new entry of `Admit` is one of the answers, neither the source nor listed before. */
  lemma {:induction false} AdmitOrigin(reached: seq<Reached>, self: string, impact: Impact,
                                       list: seq<AffectedResource>, j: nat)
    requires |list| <= j < |Admit(reached, self, impact, list)|
    ensures var r := Admit(reached, self, impact, list)[j];
            && r.resource.id !in Ids(list) && r.resource.id != self
            && exists i :: 0 <= i < |reached|
                        && r == Describe(reached[i].node, impact, reached[i].hops, reached[i].via)
    decreases |reached|
  {
    if reached != [] {
      var n := |reached| - 1;
      var most := Admit(reached[..n], self, impact, list);
      AdmitExtends(reached[..n], self, impact, list);
      if j < |most| {
        AdmitOrigin(reached[..n], self, impact, list, j);
        var i :| 0 <= i < n && most[j] == Describe(reached[..n][i].node, impact, reached[..n][i].hops, reached[..n][i].via);
        assert reached[..n][i] == reached[i];
      } else {
        AdmitIds(reached[..n], self, impact, list, reached[n].node.id);
      }
    }
  }

  lemma {:induction false} CollectIsJustified(g: Network, dir: Direction, impact: Impact, ids: seq<string>, k: int, j: nat)
    requires g.WellFormed() && j < |Collect(g, dir, impact, ids, k)|
    ensures Justified(g, dir, impact, ids, k, Collect(g, dir, impact, ids, k)[j])
    decreases |ids|
  {
    var n := |ids| - 1;
    var most := Collect(g, dir, impact, ids[..n], k);
    var r := Collect(g, dir, impact, ids, k)[j];
    if ids[n] in g.nodes {
      AdmitExtends(Reach(g, dir, ids[n], k), ids[n], impact, most);
    }
    if j < |most| {
      CollectIsJustified(g, dir, impact, ids[..n], k, j);
      JustifiedInit(g, dir, impact, ids, k, r);
    } else {
      var reached := Reach(g, dir, ids[n], k);
      AdmitOrigin(reached, ids[n], impact, most, j);
      ReachIsSound(g, dir, ids[n], k);
      var i :| 0 <= i < |reached| && r == Describe(reached[i].node, impact, reached[i].hops, reached[i].via);
      CollectIsUnion(g, dir, impact, ids[..n], k, r.resource.id);
      assert Answers(reached, r.resource.id, reached[i].hops);
      AnswersAre(g, dir, ids[n], k, r.resource.id, reached[i].hops);
    }
  }

  // ---------------------------------------------------------------------------
  // Confidence and scope
  // ---------------------------------------------------------------------------

  function PathProduct(path: seq<Dependency>): real {
    if path == [] then 1.0 else PathProduct(path[..|path| - 1]) * path[|path| - 1].confidence
  }

  function PathConfidence(path: seq<Dependency>): real {
    Round4(PathProduct(path))
  }

  method ComputePathConfidence(path: seq<Dependency>) returns (c: real)
    ensures c == PathConfidence(path)
  {
    c := 1.0;
    for n := 0 to |path|
      invariant c == PathProduct(path[..n])
    {
      assert path[..n + 1][..n] == path[..n];
      c := c * path[n].confidence;
    }
    assert path[..|path|] == path;
    c := Round4(c);
  }

  function PathConfidences(list: seq<AffectedResource>): (cs: seq<real>)
    ensures |cs| == |list|
    ensures forall i :: 0 <= i < |list| ==> cs[i] == PathConfidence(list[i].via)
  {
    seq(|list|, i requires 0 <= i < |list| => PathConfidence(list[i].via))
  }

  /** The average path confidence; an empty list is fully trusted. */
  function EstimateConfidence(list: seq<AffectedResource>): real {
    if list == [] then 1.0 else Round4(Sum(PathConfidences(list)) / |list| as real)
  }

  ghost predicate EdgeConfidencesWithin(path: seq<Dependency>, lo: real) {
    forall e :: e in path ==> lo <= e.confidence <= 1.0
  }

  function Power(b: real, n: nat): real {
    if n == 0 then 1.0 else Power(b, n - 1) * b
  }

  /** One edge has its own confidence, and paths that follow each other multiply. */
  lemma {:induction false} PathsMultiply(a: seq<Dependency>, b: seq<Dependency>)
    ensures PathProduct(a + b) == PathProduct(a) * PathProduct(b)
    ensures |b| == 1 ==> PathProduct(b) == b[0].confidence
  {
    if b == [] {
      assert a + b == a;
    } else {
      var n := |b| - 1;
      assert (a + b)[..|a| + n] == a + b[..n];
      PathsMultiply(a, b[..n]);
      Associated(PathProduct(a), PathProduct(b[..n]), b[n].confidence);
    }
  }

  lemma Associated(x: real, y: real, z: real)
    ensures x * y * z == x * (y * z)
  {
  }

  lemma ScaleDown(a: real, b: real, p: real, q: real)
    requires 0.0 <= a <= p && 0.0 <= b <= q
    ensures a * b <= p * q
  {
    assert a * b <= p * b;
    assert p * b <= p * q;
  }

  /** A path is at least as trustworthy as its weakest edge repeated, and never more than certain. */
  lemma {:induction false} PathProductWithin(path: seq<Dependency>, lo: real)
    requires 0.0 <= lo <= 1.0 && EdgeConfidencesWithin(path, lo)
    ensures 0.0 <= Power(lo, |path|) <= PathProduct(path) <= 1.0
  {
    if path != [] {
      var n := |path| - 1;
      PathProductWithin(path[..n], lo);
      assert path[n] in path;
      ProductWithin(Power(lo, n), lo, PathProduct(path[..n]), path[n].confidence);
    }
  }

  lemma ProductWithin(q: real, lo: real, p: real, c: real)
    requires 0.0 <= q <= p <= 1.0 && 0.0 <= lo <= c <= 1.0
    ensures 0.0 <= q * lo <= p * c <= 1.0
  {
    ScaleDown(q, lo, p, c);
    ScaleDown(p, c, 1.0, 1.0);
    ScaleDown(0.0, 0.0, q, lo);
  }

  lemma ProductIsCertain(p: real, c: real)
    requires 0.0 < p <= 1.0 && 0.0 < c <= 1.0
    ensures 0.0 < p * c <= 1.0
    ensures p * c == 1.0 <==> p == 1.0 && c == 1.0
  {
    assert p * c > 0.0;
    assert (1.0 - p) * c == c - p * c;
    assert p < 1.0 ==> (1.0 - p) * c > 0.0;
  }

  /** A path is certain exactly when every edge on it is. */
  lemma {:induction false} PathIsCertain(path: seq<Dependency>)
    requires forall e :: e in path ==> 0.0 < e.confidence <= 1.0
    ensures 0.0 < PathProduct(path) <= 1.0
    ensures PathProduct(path) == 1.0 <==> forall e :: e in path ==> e.confidence == 1.0
  {
    if path != [] {
      var n := |path| - 1;
      var p, c := PathProduct(path[..n]), path[n].confidence;
      PathIsCertain(path[..n]);
      assert path == path[..n] + [path[n]];
      assert c == path[n].confidence && path[n] in path;
      ProductIsCertain(p, c);
      assert PathProduct(path) == p * c;
    }
  }

  /** The average stays between the least path confidence and certainty. */
  lemma EstimateConfidenceWithin(list: seq<AffectedResource>, n: int)
    requires n <= 10000
    requires forall r :: r in list ==> n as real / 10000.0 <= PathConfidence(r.via) <= 1.0
    ensures n as real / 10000.0 <= EstimateConfidence(list) <= 1.0
  {
    if list != [] {
      var cs := PathConfidences(list);
      assert forall i :: 0 <= i < |list| ==> list[i] in list;
      AverageWithin(cs, n);
    }
  }

  lemma AverageWithin(cs: seq<real>, n: int)
    requires cs != [] && forall c :: c in cs ==> n as real / 10000.0 <= c <= 1.0
    ensures n as real / 10000.0 <= Round4(Sum(cs) / |cs| as real) <= 1.0
  {
    var lo, m := n as real / 10000.0, |cs| as real;
    SumWithin(cs, lo, 1.0);
    DivideBetween(lo, Sum(cs), m);
    Round4Monotone(lo, Sum(cs) / m);
    Round4Monotone(Sum(cs) / m, 1.0);
    RoundExact(n);
    RoundInteger(1);
  }

  lemma DivideBetween(lo: real, total: real, m: real)
    requires m > 0.0 && lo * m <= total <= m
    ensures lo <= total / m <= 1.0
  {
    assert total / m * m == total;
  }

  const SCOPE_THRESHOLDS: seq<(nat, Scope)> := [(1, Narrow), (4, Moderate), (9, Wide)]

  function ScopeFor(count: nat, hasCritical: bool): Scope {
    if count <= 1 then (if hasCritical then Moderate else Narrow)
    else if count <= 4 then Moderate
    else if count <= 9 then Wide
    else Extensive
  }

  method EstimateScope(count: nat, hasCritical: bool) returns (scope: Scope)
    ensures scope == ScopeFor(count, hasCritical)
  {
    scope := Extensive;
    for n := 0 to |SCOPE_THRESHOLDS|
      invariant scope == Extensive
      invariant forall j :: 0 <= j < n ==> count > SCOPE_THRESHOLDS[j].0
    {
      if count <= SCOPE_THRESHOLDS[n].0 {
        scope := SCOPE_THRESHOLDS[n].1;
        break;
      }
    }
    assert SCOPE_THRESHOLDS[0].0 == 1 && SCOPE_THRESHOLDS[1].0 == 4 && SCOPE_THRESHOLDS[2].0 == 9;
    if hasCritical && scope == Narrow {
      scope := Moderate;
    }
  }

  // ---------------------------------------------------------------------------
  // The analyzer
  // ---------------------------------------------------------------------------

  function NamesOf(list: seq<AffectedResource>, types: set<ResourceType>): set<string> {
    set r | r in list && r.resource.resourceType in types :: r.resource.name
  }

  function DatabasesOf(list: seq<AffectedResource>): set<string> {
    set r | r in list && "database" in r.resource.metadata && r.resource.metadata["database"].Str?
      :: r.resource.metadata["database"].s
  }

  function CriticalOf(list: seq<AffectedResource>): set<string> {
    set r | r in list && r.criticality == Critical :: r.resource.name
  }

  function Summarize(direct: seq<AffectedResource>, downstream: seq<AffectedResource>,
                     upstream: seq<AffectedResource>): BlastRadius {
    var impacted := direct + downstream;
    BlastRadius(
      direct, downstream, upstream,
      NamesOf(impacted, {Service}),
      DatabasesOf(impacted),
      NamesOf(impacted, {Table, View, ReplicationTarget}),
      NamesOf(impacted, {ApiEndpoint}),
      NamesOf(impacted, {DataPipeline}),
      CriticalOf(downstream),
      ScopeFor(|downstream|, CriticalOf(downstream) != {}),
      EstimateConfidence(downstream))
  }

  /** The blast radius of changing the resources `ids`. */
  function BlastOf(g: Network, ids: seq<string>, k: int): BlastRadius {
    Summarize(
      DirectImpact(g, ids),
      Collect(g, Incoming, Downstream, ids, k),
      Collect(g, Outgoing, Upstream, ids, k))
  }

  class BlastRadiusAnalyzer {
    const graph: DependencyGraph
    const maxHops: int

    constructor (graph: DependencyGraph, maxHops: int := 4)
      ensures this.graph == graph && this.maxHops == maxHops
    {
      this.graph := graph;
      this.maxHops := maxHops;
    }

    method Analyze(ids: seq<string>) returns (r: BlastRadius)
      requires graph.Valid()
      ensures r == BlastOf(graph.Model(), ids, maxHops)
    {
      var direct, downstream, upstream := [], [], [];
      var seenDownstream, seenUpstream := {}, {};
      ghost var g := graph.Model();
      for n := 0 to |ids|
        invariant direct == DirectImpact(g, ids[..n])
        invariant downstream == Collect(g, Incoming, Downstream, ids[..n], maxHops)
        invariant upstream == Collect(g, Outgoing, Upstream, ids[..n], maxHops)
        invariant seenDownstream == Ids(downstream) && seenUpstream == Ids(upstream)
      {
        assert ids[..n + 1][..n] == ids[..n];
        var node := graph.NodeById(ids[n]);
        if node.Some? {
          direct := direct + [Describe(node.value, Direct, 0, [])];
          var below := graph.DownstreamOf(ids[n], maxHops);
          downstream, seenDownstream := AdmitAll(below, ids[n], Downstream, downstream, seenDownstream);
          var above := graph.UpstreamOf(ids[n], maxHops);
          upstream, seenUpstream := AdmitAll(above, ids[n], Upstream, upstream, seenUpstream);
        }
      }
      assert ids[..|ids|] == ids;
      var scope := EstimateScope(|downstream|, CriticalOf(downstream) != {});
      var confidence := AverageConfidence(downstream);
      var impacted := direct + downstream;
      r := BlastRadius(
        direct, downstream, upstream,
        NamesOf(impacted, {Service}),
        DatabasesOf(impacted),
        NamesOf(impacted, {Table, View, ReplicationTarget}),
        NamesOf(impacted, {ApiEndpoint}),
        NamesOf(impacted, {DataPipeline}),
        CriticalOf(downstream),
        scope,
        confidence);
    }

    /** The loop over one traversal answer, with the set of ids already listed. */
    method AdmitAll(reached: seq<Reached>, self: string, impact: Impact,
                    list0: seq<AffectedResource>, seen0: set<string>)
      returns (list: seq<AffectedResource>, seen: set<string>)
      requires seen0 == Ids(list0)
      ensures list == Admit(reached, self, impact, list0) && seen == Ids(list)
    {
      list, seen := list0, seen0;
      for n := 0 to |reached|
        invariant list == Admit(reached[..n], self, impact, list0) && seen == Ids(list)
      {
        assert reached[..n + 1][..n] == reached[..n];
        var r := reached[n];
        if r.node.id !in seen && r.node.id != self {
          IdsAppend(list, Describe(r.node, impact, r.hops, r.via));
          seen := seen + {r.node.id};
          list := list + [Describe(r.node, impact, r.hops, r.via)];
        }
      }
      assert reached[..|reached|] == reached;
    }

    method AverageConfidence(list: seq<AffectedResource>) returns (c: real)
      ensures c == EstimateConfidence(list)
    {
      if list == [] {
        return 1.0;
      }
      var confidences := [];
      for n := 0 to |list|
        invariant confidences == PathConfidences(list)[..n]
      {
        var p := ComputePathConfidence(list[n].via);
        confidences := confidences + [p];
      }
      assert confidences == PathConfidences(list);
      c := Round4(Sum(confidences) / |list| as real);
    }
  }

  // ---------------------------------------------------------------------------
  // Growing the list of changed resources
  // ---------------------------------------------------------------------------

  lemma {:induction false} DirectExtends(g: Network, ids: seq<string>, more: seq<string>)
    ensures DirectImpact(g, ids) <= DirectImpact(g, ids + more)
  {
    if more == [] {
      assert ids + more == ids;
    } else {
      var n := |more| - 1;
      assert (ids + more)[..|ids| + n] == ids + more[..n];
      DirectExtends(g, ids, more[..n]);
    }
  }

  /** `b` covers everything `a` does. */
  ghost predicate Covers(b: BlastRadius, a: BlastRadius) {
    && a.direct <= b.direct
    && a.downstream <= b.downstream
    && a.upstream <= b.upstream
    && a.services <= b.services
    && a.databases <= b.databases
    && a.tables <= b.tables
    && a.apis <= b.apis
    && a.pipelines <= b.pipelines
    && a.critical <= b.critical
  }

  /** Changing more resources never shrinks the blast radius. */
  lemma BlastGrows(g: Network, ids: seq<string>, more: seq<string>, k: int)
    ensures Covers(BlastOf(g, ids + more, k), BlastOf(g, ids, k))
  {
    DirectExtends(g, ids, more);
    CollectExtends(g, Incoming, Downstream, ids, more, k);
    CollectExtends(g, Outgoing, Upstream, ids, more, k);
    var a, b := BlastOf(g, ids, k), BlastOf(g, ids + more, k);
    PrefixMembers(a.direct, b.direct);
    PrefixMembers(a.downstream, b.downstream);
  }

  lemma PrefixMembers<T>(a: seq<T>, b: seq<T>)
    requires a <= b
    ensures forall x :: x in a ==> x in b
  {
    assert b == a + b[|a|..];
  }
}
