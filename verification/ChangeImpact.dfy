/** From the operations of a change to what it hits: where in the graph they are looked up, and what is found there. */
module ChangeImpact {
  import opened Prelude
  import opened Changes
  import opened Dependencies
  import opened BlastRadii
  import opened ImpactLists
  import opened GraphBuilding
  import opened BuiltGraphs
  import opened RiskFactors
  import opened Pipeline

  // ---------------------------------------------------------------------------
  // Where operations are looked up
  // ---------------------------------------------------------------------------

  /** A change without a target database is looked up under `unknown`. */
  ghost predicate IsDatabase(database: Option<string>, name: string) {
    match database
    case None => name == "unknown"
    case Some(d) => name == if d == "" then "unknown" else d
  }

  ghost predicate NamesTable(op: DatabaseChange, schema: string, table: string) {
    op.schema == schema && op.table == Some(table) && table != ""
  }

  /** Some database operation names a table that the graph has a node for, under this id. */
  ghost predicate Changed(database: Option<string>, operations: seq<ChangeOperation>, g: Network, id: string) {
    id in g.nodes
    && exists db, op, schema, table ::
         && IsDatabase(database, db) && ChangeOperation.Database(op) in operations && NamesTable(op, schema, table)
         && id == "table:" + db + "." + schema + "." + table
  }

  lemma {:induction false} OperationsAre(operations: seq<ChangeOperation>, op: DatabaseChange)
    ensures op in DatabaseOperations(operations) <==> ChangeOperation.Database(op) in operations
  {
    if operations != [] {
      var n := |operations| - 1;
      OperationsAre(operations[..n], op);
      assert operations == operations[..n] + [operations[n]];
    }
  }

  lemma {:induction false} NodeIdsAre(database: Option<string>, db: string, ops: seq<DatabaseChange>, id: string)
    requires IsDatabase(database, db)
    ensures id in NodeIds(database, ops) <==>
            exists op, schema, table ::
              op in ops && NamesTable(op, schema, table) && id == "table:" + db + "." + schema + "." + table
  {
    if ops != [] {
      var n := |ops| - 1;
      NodeIdsAre(database, db, ops[..n], id);
      assert ops == ops[..n] + [ops[n]];
      if ops[n].HasTable() {
        assert NamesTable(ops[n], ops[n].schema, ops[n].table.value);
      }
    }
  }

  /** One lookup for every operation that names a table, in order. */
  lemma OneLookup(database: Option<string>, db: string, op: DatabaseChange)
    requires IsDatabase(database, db)
    ensures (op.table == None || op.table == Some("")) ==> NodeIds(database, [op]) == []
    ensures forall table :: op.table == Some(table) && table != "" ==>
              NodeIds(database, [op]) == ["table:" + db + "." + op.schema + "." + table]
    ensures forall a, b :: NodeIds(database, a + b) == NodeIds(database, a) + NodeIds(database, b)
  {
    assert [op][..0] == [];
    forall a, b ensures NodeIds(database, a + b) == NodeIds(database, a) + NodeIds(database, b) {
      NodeIdsAppend(database, a, b);
    }
  }

  lemma ChangedIs(database: Option<string>, operations: seq<ChangeOperation>, g: Network, id: string)
    ensures Changed(database, operations, g, id) <==>
            id in g.nodes && id in NodeIds(database, DatabaseOperations(operations))
  {
    var db := DatabaseName(database);
    assert IsDatabase(database, db) && forall d :: IsDatabase(database, d) ==> d == db;
    NodeIdsAre(database, db, DatabaseOperations(operations), id);
    forall op ensures op in DatabaseOperations(operations) <==> ChangeOperation.Database(op) in operations {
      OperationsAre(operations, op);
    }
  }

  // ---------------------------------------------------------------------------
  // What a change hits
  // ---------------------------------------------------------------------------

  /** Without a graph, or without a database operation, there is no blast radius. */
  ghost function DirectHits(ctx: FactorContext): seq<AffectedResource> {
    match ctx.blast case None => [] case Some(b) => b.direct
  }

  ghost function DownstreamHits(ctx: FactorContext): seq<AffectedResource> {
    match ctx.blast case None => [] case Some(b) => b.downstream
  }

  ghost function UpstreamHits(ctx: FactorContext): seq<AffectedResource> {
    match ctx.blast case None => [] case Some(b) => b.upstream
  }

  lemma BlastThere(environment: string, database: Option<string>, operations: seq<ChangeOperation>, graph: Option<Network>,
                   known: Evidence)
    ensures var ctx := ContextFor(environment, database, operations, graph, known);
            && (ctx.blast.Some? <==> graph.Some? && exists op :: ChangeOperation.Database(op) in operations)
            && (forall op :: op in ctx.operations <==> ChangeOperation.Database(op) in operations)
            && (ctx.blast.Some? ==> ctx.blast.value == BlastOf(graph.value, NodeIds(database, ctx.operations), 4))
  {
    hide BlastOf;
    forall op ensures op in DatabaseOperations(operations) <==> ChangeOperation.Database(op) in operations {
      OperationsAre(operations, op);
    }
    var ops := DatabaseOperations(operations);
    if ops != [] {
      assert ops[0] in ops;
    }
  }

  /**
   * A change hits the nodes of the tables its operations name, then all that depends on one of them, or that one of
   * them depends on, over at most four edges.
   */
  lemma HitsExactly(environment: string, database: Option<string>, operations: seq<ChangeOperation>, g: Network,
                    known: Evidence, x: string)
    requires g.WellFormed()
    ensures var ctx := ContextFor(environment, database, operations, Some(g), known);
            && (Holds(DirectHits(ctx), x) <==> Changed(database, operations, g, x))
            && (Holds(DownstreamHits(ctx), x) <==>
                  exists id :: Changed(database, operations, g, id) && id != x && DependsWithin(g.edges, x, id, 4))
            && (Holds(UpstreamHits(ctx), x) <==>
                  exists id :: Changed(database, operations, g, id) && id != x && DependsWithin(g.edges, id, x, 4))
            && (forall r :: r in DirectHits(ctx) ==>
                  r.resource.id in g.nodes && Describes(r, g.nodes[r.resource.id]) && r.impact == Direct)
  {
    hide BlastOf, NodeIds, Changed, DependsWithin, Describes, Holds;
    var ctx := ContextFor(environment, database, operations, Some(g), known);
    BlastThere(environment, database, operations, Some(g), known);
    var ids := NodeIds(database, ctx.operations);
    forall id ensures Changed(database, operations, g, id) <==> id in g.nodes && id in ids {
      ChangedIs(database, operations, g, id);
    }
    if ctx.blast.Some? {
      ListsByChains(g, ids, 4, x);
      forall r | r in DirectHits(ctx)
        ensures r.resource.id in g.nodes && Describes(r, g.nodes[r.resource.id]) && r.impact == Direct
      {
        EntriesAreNodes(g, ids, 4, r);
      }
    } else {
      NothingChanged(database, ctx.operations);
      NothingHeld(x);
    }
  }

  lemma NothingChanged(database: Option<string>, ops: seq<DatabaseChange>)
    ensures ops == [] ==> NodeIds(database, ops) == []
  {
  }

  lemma NothingHeld(x: string)
    ensures !Holds([], x)
  {
  }

  // ---------------------------------------------------------------------------
  // Tables of a catalog
  // ---------------------------------------------------------------------------

  /** Some operation of the change names this schema and table. */
  ghost predicate Touches(operations: seq<ChangeOperation>, schema: string, table: string) {
    exists op :: ChangeOperation.Database(op) in operations && NamesTable(op, schema, table)
  }

  /** Some operation names a schema and a table that read the same when joined by a dot. */
  ghost predicate TouchesSpelled(operations: seq<ChangeOperation>, full: string) {
    exists op, schema, table ::
      ChangeOperation.Database(op) in operations && NamesTable(op, schema, table) && schema + "." + table == full
  }

  /** No operation names a schema with a dot in it. */
  ghost predicate PlainSchemas(operations: seq<ChangeOperation>) {
    forall op :: ChangeOperation.Database(op) in operations ==> '.' !in op.schema
  }

  lemma SameSpelling(a: string, b: string, c: string, d: string)
    requires '.' !in a && '.' !in c && a + "." + b == c + "." + d
    ensures a == c && b == d
  {
    hide Split;
    assert a + ['.'] + b == c + ['.'] + d;
    SplitPrefix(a, b, '.');
    SplitPrefix(c, d, '.');
    assert ([a] + Split(b, '.'))[0] == a && ([c] + Split(d, '.'))[0] == c;
    assert (a + "." + b)[|a| + 1..] == b && (c + "." + d)[|c| + 1..] == d;
  }

  lemma ChangedIsSpelled(database: Option<string>, db: string, operations: seq<ChangeOperation>, g: Network, full: string)
    requires IsDatabase(database, db) && "table:" + db + "." + full in g.nodes
    ensures Changed(database, operations, g, "table:" + db + "." + full) <==> TouchesSpelled(operations, full)
  {
    var id := "table:" + db + "." + full;
    if Changed(database, operations, g, id) {
      var d, op, schema, table :|
        IsDatabase(database, d) && ChangeOperation.Database(op) in operations && NamesTable(op, schema, table)
        && id == "table:" + d + "." + schema + "." + table;
      TableIdParts(db, schema, table);
      SameTable(db, full, schema + "." + table);
    }
    if TouchesSpelled(operations, full) {
      var op, schema, table :| ChangeOperation.Database(op) in operations && NamesTable(op, schema, table) && schema + "." + table == full;
      TableIdParts(db, schema, table);
    }
  }

  /**
   * On a built graph, where a catalog of the database of the change lists a table: the table is hit directly exactly
   * when some operation names it. Its entry is its node in the graph, of the kind, name and database the catalog says
   * unless something before that catalog was known under the same id.
   */
  lemma ListedTableIsHit(environment: string, database: Option<string>, operations: seq<ChangeOperation>,
                         inputs: seq<Input>, known: Evidence, i: nat, s: CatalogSchema, t: CatalogTable)
    requires i < |inputs| && inputs[i].Catalog? && s in inputs[i].schemas && t in s.tables
    requires IsDatabase(database, inputs[i].db)
    ensures var ctx := ContextFor(environment, database, operations, Some(Build(inputs)), known);
            var id := "table:" + inputs[i].db + "." + s.name + "." + t.name;
            && (Holds(DirectHits(ctx), id) <==> TouchesSpelled(operations, s.name + "." + t.name))
            && ('.' !in s.name && PlainSchemas(operations) ==>
                  (Holds(DirectHits(ctx), id) <==> Touches(operations, s.name, t.name)))
            && (forall r :: r in DirectHits(ctx) && r.resource.id == id ==>
                  && id in Build(inputs).nodes && r.resource == Build(inputs).nodes[id]
                  && (id !in Build(inputs[..i]).nodes ==>
                        && r.resource.resourceType == ResourceType.Table && r.resource.name == s.name + "." + t.name
                        && "database" in r.resource.metadata && r.resource.metadata["database"] == Str(inputs[i].db)))
  {
    hide Build, ContextFor, Changed, Holds, DirectHits;
    var db, full := inputs[i].db, s.name + "." + t.name;
    var id := "table:" + db + "." + s.name + "." + t.name;
    TableIdParts(db, s.name, t.name);
    BuildIsSound(inputs);
    ListedTableNode(inputs, i, s, t);
    HitsExactly(environment, database, operations, Build(inputs), known, id);
    ChangedIsSpelled(database, db, operations, Build(inputs), full);
    if '.' !in s.name && PlainSchemas(operations) {
      forall op, schema, table |
        ChangeOperation.Database(op) in operations && NamesTable(op, schema, table) && schema + "." + table == full
        ensures schema == s.name && table == t.name
      {
        SameSpelling(schema, table, s.name, t.name);
      }
    }
  }

  /** Every direct entry is the node of a table that some operation names, in the database of the change. */
  lemma DirectArises(environment: string, database: Option<string>, operations: seq<ChangeOperation>, inputs: seq<Input>,
                     known: Evidence, r: AffectedResource)
    requires r in DirectHits(ContextFor(environment, database, operations, Some(Build(inputs)), known))
    ensures r.resource.id in Build(inputs).nodes && r.resource == Build(inputs).nodes[r.resource.id]
    ensures exists db, schema, table ::
              && IsDatabase(database, db) && Touches(operations, schema, table)
              && r.resource.id == "table:" + db + "." + schema + "." + table
  {
    hide Build, ContextFor, DirectHits;
    BuildIsSound(inputs);
    HitsExactly(environment, database, operations, Build(inputs), known, r.resource.id);
    var db, op, schema, table :|
      IsDatabase(database, db) && ChangeOperation.Database(op) in operations && NamesTable(op, schema, table)
      && r.resource.id == "table:" + db + "." + schema + "." + table;
    assert Touches(operations, schema, table);
  }

  /** A change to a table also hits, downstream, every other table with a foreign key to it. */
  lemma ReferencingTableIsHit(environment: string, database: Option<string>, operations: seq<ChangeOperation>,
                              inputs: seq<Input>, known: Evidence, i: nat, s: CatalogSchema, t: CatalogTable,
                              s': CatalogSchema, t': CatalogTable, fk: ForeignKey)
    requires i < |inputs| && inputs[i].Catalog? && IsDatabase(database, inputs[i].db)
    requires s in inputs[i].schemas && t in s.tables && s' in inputs[i].schemas && t' in s'.tables
    requires fk in t'.foreignKeys && fk.referencedSchema == s.name && fk.referencedTable == t.name
    requires Touches(operations, s.name, t.name) && s'.name + "." + t'.name != s.name + "." + t.name
    ensures Holds(DownstreamHits(ContextFor(environment, database, operations, Some(Build(inputs)), known)),
                  "table:" + inputs[i].db + "." + s'.name + "." + t'.name)
  {
    hide Build, ContextFor, Changed, Holds, DownstreamHits, DirectHits;
    var db, g := inputs[i].db, Build(inputs);
    var id, x := "table:" + db + "." + s.name + "." + t.name, "table:" + db + "." + s'.name + "." + t'.name;
    BuildIsSound(inputs);
    var e := ListedKeyEdge(inputs, i, s', t', fk);
    ChainOfOne(g.edges, e);
    assert DependsWithin(g.edges, x, id, 4);
    TableIdParts(db, s.name, t.name);
    TableIdParts(db, s'.name, t'.name);
    if id == x {
      SameTable(db, s.name + "." + t.name, s'.name + "." + t'.name);
    }
    ListedTableNode(inputs, i, s, t);
    ChangedIsSpelled(database, db, operations, g, s.name + "." + t.name);
    HitsExactly(environment, database, operations, g, known, x);
  }

  // ---------------------------------------------------------------------------
  // Where names run together
  // ---------------------------------------------------------------------------

  function Operation(kind: DatabaseOperation, schema: string, table: string): ChangeOperation {
    ChangeOperation.Database(DatabaseChange("sql", kind, None, schema, Some(table), None, None, None, None, None, None, ""))
  }

  const EMPTY_EVIDENCE := Evidence(map[], map[], map[])

  /** Table `c` of schema `a.b` is hit by a change to table `b.c` of schema `a`: joined by dots they are one name. */
  lemma DottedNamesMeet(t: CatalogTable)
    requires t.name == "c"
    ensures var operations := [Operation(DropTable, "a", "b.c")];
            var inputs := [Catalog("shop", [CatalogSchema("a.b", [t], [])])];
            && Holds(DirectHits(ContextFor("staging", Some("shop"), operations, Some(Build(inputs)), EMPTY_EVIDENCE)),
                     "table:shop.a.b.c")
            && !Touches(operations, "a.b", "c")
  {
    hide Build, ContextFor, Holds, DirectHits;
    var operations := [Operation(DropTable, "a", "b.c")];
    var s := CatalogSchema("a.b", [t], []);
    var inputs := [Catalog("shop", [s])];
    assert NamesTable(operations[0].change, "a", "b.c") && operations[0] in operations;
    assert "a" + "." + "b.c" == "a.b" + "." + "c" == "a.b.c";
    assert TouchesSpelled(operations, "a.b" + "." + "c");
    assert "table:" + "shop" + "." + "a.b" + "." + "c" == "table:shop.a.b.c";
    ListedTableIsHit("staging", Some("shop"), operations, inputs, EMPTY_EVIDENCE, 0, s, t);
    assert |"a.b"| == 3;
  }

  /** One service that reads one table. */
  function Reader(ref: string): AppConfig {
    AppConfig([], [ServiceEntry("web", "service", true, false, None, [ref], [])], [], [])
  }

  ghost predicate HasNode(inputs: seq<Input>, n: Node) {
    n.id in Build(inputs).nodes && Build(inputs).nodes[n.id] == n
  }

  function RefNode(ref: string): Node {
    Node("table:" + ref, ResourceType.Table, ref, map[])
  }

  lemma ReaderJoins(ref: string)
    requires ThreeParts(ref)
    ensures "table:" + ref in WithConfig(Network(map[], []), Reader(ref)).graph.nodes
  {
    hide WithConfig, ThreeParts;
    var c, g := Reader(ref), Network(map[], []);
    assert c.services[0].readsFrom + c.services[0].writesTo == [ref];
    assert WellSpelled(c);
    var e := Dependency("service:web", "table:" + ref, "reads_or_writes", Provenance.Configuration, 0.85, None, map[]);
    assert ref in [ref] && Configured(e, "service:web", "table:" + ref, "reads_or_writes", 0.85);
    assert UsesTable(e, ServiceId(c.services[0]), [ref]);
    ConfigJoins(g, c, e);
    assert Extends(g, WithConfig(g, c).graph);
  }

  lemma ReaderNode(ref: string)
    requires ThreeParts(ref)
    ensures HasNode([Config(Reader(ref))], RefNode(ref))
  {
    hide WithConfig, ThreeParts, StandsForRef;
    var c, g, id := Reader(ref), Network(map[], []), "table:" + ref;
    assert Build([]) == g && [Config(c)][..0] == [];
    assert Build([Config(c)]) == WithConfig(g, c).graph;
    ReaderJoins(ref);
    ConfigNodes(g, c, id);
    assert Extends(g, WithConfig(g, c).graph);
    ReaderStands(WithConfig(g, c).graph.nodes[id], ref);
  }

  lemma ReaderStands(n: Node, ref: string)
    requires n.id == "table:" + ref && FromConfig(n, Reader(ref))
    ensures n == RefNode(ref)
  {
    assert n.id[0] == 't' && |("table:" + ref)| == 6 + |ref| && ("table:" + ref)[6..] == ref;
    var s :| s in Reader(ref).services && FromService(n, s);
    assert s.readsFrom + s.writesTo == [ref];
  }

  /** A table that a configuration named before its catalog was read keeps the configuration's node, without database. */
  lemma ConfiguredFirst(db: string, s: CatalogSchema, t: CatalogTable)
    requires t in s.tables && '.' !in db && '.' !in s.name && '.' !in t.name
    ensures var full := db + "." + s.name + "." + t.name;
            HasNode([Config(Reader(full)), Catalog(db, [s])], Node("table:" + full, ResourceType.Table, full, map[]))
  {
    hide Build, Reader, Split;
    var full := db + "." + s.name + "." + t.name;
    var inputs := [Config(Reader(full)), Catalog(db, [s])];
    assert inputs[..1] == [Config(Reader(full))] && s in [s];
    assert PartsOf(full, db, s.name, t.name);
    ReaderNode(full);
    ListedTableNode(inputs, 1, s, t);
    assert "table:" + db + "." + s.name + "." + t.name == "table:" + full;
  }
}
