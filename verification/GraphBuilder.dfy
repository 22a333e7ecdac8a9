/** Building the dependency graph from catalog metadata and application configuration. */
module GraphBuilding {
  import opened Prelude
  import opened Reals
  import opened Dependencies
  import opened DependencyGraphs
  import opened BlastRadii

  // ---------------------------------------------------------------------------
  // Inputs
  // ---------------------------------------------------------------------------

  datatype ForeignKey = ForeignKey(name: string, referencedSchema: string, referencedTable: string)

  datatype CatalogTable = CatalogTable(
    name: string, foreignKeys: seq<ForeignKey>, rowEstimate: Option<int>, sizeBytes: Option<int>)

  datatype CatalogView = CatalogView(name: string, isMaterialized: bool, referencedTables: seq<string>)

  datatype CatalogSchema = CatalogSchema(name: string, tables: seq<CatalogTable>, views: seq<CatalogView>)

  datatype DatabaseEntry = DatabaseEntry(name: string, production: bool, critical: bool)

  datatype ServiceEntry = ServiceEntry(
    name: string, kind: string, production: bool, critical: bool, owner: Option<string>,
    readsFrom: seq<string>, writesTo: seq<string>)

  datatype ReplicationEntry = ReplicationEntry(
    source: string, target: string, mechanism: string, pipelineName: Option<string>)

  datatype ApiEntry = ApiEntry(name: string, service: string, tables: seq<string>)

  datatype AppConfig = AppConfig(
    databases: seq<DatabaseEntry>, services: seq<ServiceEntry>, replication: seq<ReplicationEntry>, apis: seq<ApiEntry>)

  function TableNodeId(database: string, schema: string, table: string): string {
    "table:" + database + "." + schema + "." + table
  }

  function ViewNodeId(database: string, schema: string, view: string): string {
    "view:" + database + "." + schema + "." + view
  }

  function ServiceNodeId(name: string): string {
    "service:" + name
  }

  function ApiNodeId(name: string): string {
    "api:" + name
  }

  function PipelineNodeId(name: string): string {
    "pipeline:" + name
  }

  function DatabaseNodeId(name: string): string {
    "database:" + name
  }

  /** A parsed `database.schema.table` reference. */
  datatype TableRef = TableRef(database: string, schema: string, table: string) {
    function NodeId(): string {
      TableNodeId(database, schema, table)
    }

    function Qualified(): string {
      database + "." + schema + "." + table
    }
  }

  /** References of any other number of parts are refused. */
  function ParseRef(raw: string): Option<TableRef> {
    var parts := Split(raw, '.');
    if |parts| == 3 then Some(TableRef(parts[0], parts[1], parts[2])) else None
  }

  // ---------------------------------------------------------------------------
  // What every step keeps
  // ---------------------------------------------------------------------------

  /** The confidence is 1 exactly for catalog facts, and never below 0.85. */
  ghost predicate Graded(e: Dependency) {
    && (e.confidence == 1.0 <==> e.source == Provenance.DatabaseMetadata)
    && 0.85 <= e.confidence <= 1.0
  }

  /** Nodes stay and new ones carry their id; edges are only appended, graded and between nodes of the graph. */
  ghost predicate Extends(g: Network, r: Network) {
    && (forall id :: id in g.nodes ==> id in r.nodes && r.nodes[id] == g.nodes[id])
    && (forall id :: id in r.nodes && id !in g.nodes ==> r.nodes[id].id == id)
    && g.edges <= r.edges
    && (forall i :: |g.edges| <= i < |r.edges| ==>
          Graded(r.edges[i]) && r.edges[i].sourceId in r.nodes && r.edges[i].targetId in r.nodes)
  }

  lemma ExtendsTransitive(a: Network, b: Network, c: Network)
    requires Extends(a, b) && Extends(b, c)
    ensures Extends(a, c)
  {
    forall i | |a.edges| <= i < |c.edges|
      ensures Graded(c.edges[i]) && c.edges[i].sourceId in c.nodes && c.edges[i].targetId in c.nodes
    {
      assert i < |b.edges| ==> c.edges[i] == b.edges[i];
    }
  }

  /** The first node under an id stays. */
  function PutNode(g: Network, n: Node): (r: Network)
    ensures Extends(g, r) && r.edges == g.edges && r.nodes.Keys == g.nodes.Keys + {n.id}
  {
    if n.id in g.nodes then g else g.(nodes := g.nodes[n.id := n])
  }

  /** Adding an edge is defined only where it does not raise. */
  function PutEdge(g: Network, e: Dependency): (r: Network)
    requires e.sourceId in g.nodes && e.targetId in g.nodes && Graded(e)
    ensures Extends(g, r) && r.nodes == g.nodes && r.edges == g.edges + [e]
  {
    g.(edges := g.edges + [e])
  }

  // ---------------------------------------------------------------------------
  // Catalog metadata
  // ---------------------------------------------------------------------------

  function OptNum(n: Option<int>): Value {
    if n.Some? then Num(n.value as real) else Null
  }

  function TableNode(db: string, schema: string, t: CatalogTable): Node {
    Node(TableNodeId(db, schema, t.name), ResourceType.Table, schema + "." + t.name,
         map["database" := Str(db), "row_estimate" := OptNum(t.rowEstimate), "table_size_bytes" := OptNum(t.sizeBytes)])
  }

  function ViewNode(db: string, schema: string, v: CatalogView): Node {
    Node(ViewNodeId(db, schema, v.name), ResourceType.View, schema + "." + v.name,
         map["database" := Str(db), "is_materialized" := Bool(v.isMaterialized)])
  }

  function PutTables(g: Network, db: string, schema: string, tables: seq<CatalogTable>): (r: Network)
    ensures Extends(g, r) && r.edges == g.edges
    ensures forall t :: t in tables ==> TableNodeId(db, schema, t.name) in r.nodes
    decreases |tables|
  {
    if tables == [] then
      g
    else
      var more := PutNode(g, TableNode(db, schema, tables[0]));
      var r := PutTables(more, db, schema, tables[1..]);
      ExtendsTransitive(g, more, r);
      assert forall t :: t in tables ==> t == tables[0] || t in tables[1..];
      r
  }

  function PutViews(g: Network, db: string, schema: string, views: seq<CatalogView>): (r: Network)
    ensures Extends(g, r) && r.edges == g.edges
    ensures forall v :: v in views ==> ViewNodeId(db, schema, v.name) in r.nodes
    decreases |views|
  {
    if views == [] then
      g
    else
      var more := PutNode(g, ViewNode(db, schema, views[0]));
      var r := PutViews(more, db, schema, views[1..]);
      ExtendsTransitive(g, more, r);
      assert forall v :: v in views ==> v == views[0] || v in views[1..];
      r
  }

  /** Every table and view of the schema has its node. */
  ghost predicate Present(nodes: map<string, Node>, db: string, s: CatalogSchema) {
    && (forall t :: t in s.tables ==> TableNodeId(db, s.name, t.name) in nodes)
    && (forall v :: v in s.views ==> ViewNodeId(db, s.name, v.name) in nodes)
  }

  function PutSchemas(g: Network, db: string, schemas: seq<CatalogSchema>): (r: Network)
    ensures Extends(g, r) && r.edges == g.edges
    ensures forall s :: s in schemas ==> Present(r.nodes, db, s)
    decreases |schemas|
  {
    if schemas == [] then
      g
    else
      var s := schemas[0];
      var tables := PutTables(g, db, s.name, s.tables);
      var views := PutViews(tables, db, s.name, s.views);
      var r := PutSchemas(views, db, schemas[1..]);
      ExtendsTransitive(g, tables, views);
      ExtendsTransitive(g, views, r);
      assert forall x :: x in schemas ==> x == s || x in schemas[1..];
      r
  }

  /** The referencing table depends on the referenced one. */
  function ForeignKeyEdge(db: string, source: string, fk: ForeignKey): Dependency {
    Dependency(source, TableNodeId(db, fk.referencedSchema, fk.referencedTable), "foreign_key:" + fk.name,
               Provenance.DatabaseMetadata, 1.0, None, map[])
  }

  /** Foreign keys to tables the graph does not know are skipped. */
  function LinkForeignKeys(g: Network, db: string, source: string, fks: seq<ForeignKey>): (r: Network)
    requires source in g.nodes
    ensures Extends(g, r) && r.nodes == g.nodes
    decreases |fks|
  {
    if fks == [] then
      g
    else
      var e := ForeignKeyEdge(db, source, fks[0]);
      var more := if e.targetId in g.nodes then PutEdge(g, e) else g;
      var r := LinkForeignKeys(more, db, source, fks[1..]);
      ExtendsTransitive(g, more, r);
      r
  }

  function LinkTables(g: Network, db: string, schema: string, tables: seq<CatalogTable>): (r: Network)
    requires forall t :: t in tables ==> TableNodeId(db, schema, t.name) in g.nodes
    ensures Extends(g, r) && r.nodes == g.nodes
    decreases |tables|
  {
    if tables == [] then
      g
    else
      var more := LinkForeignKeys(g, db, TableNodeId(db, schema, tables[0].name), tables[0].foreignKeys);
      var r := LinkTables(more, db, schema, tables[1..]);
      ExtendsTransitive(g, more, r);
      r
  }

  function LinkSchemaTables(g: Network, db: string, schemas: seq<CatalogSchema>): (r: Network)
    requires forall s :: s in schemas ==> Present(g.nodes, db, s)
    ensures Extends(g, r) && r.nodes == g.nodes
    decreases |schemas|
  {
    if schemas == [] then
      g
    else
      assert Present(g.nodes, db, schemas[0]);
      var more := LinkTables(g, db, schemas[0].name, schemas[0].tables);
      var r := LinkSchemaTables(more, db, schemas[1..]);
      ExtendsTransitive(g, more, r);
      r
  }

  /** The text before and after the first dot; without a dot all of it is before. */
  function Partition(text: string): (string, string) {
    var parts := Split(text, '.');
    if |parts| == 1 then (text, "") else (parts[0], Join(parts[1..], '.'))
  }

  /** The table of that name if the graph has one, else the view of that name. */
  function ReferencedId(nodes: map<string, Node>, db: string, ref: string): string {
    var (schema, name) := Partition(ref);
    if TableNodeId(db, schema, name) in nodes then TableNodeId(db, schema, name) else ViewNodeId(db, schema, name)
  }

  function ViewEdge(nodes: map<string, Node>, db: string, source: string, ref: string): Dependency {
    Dependency(source, ReferencedId(nodes, db, ref), "reads_from", Provenance.DatabaseMetadata, 1.0, None, map[])
  }

  function LinkViewRefs(g: Network, db: string, source: string, refs: seq<string>): (r: Network)
    requires source in g.nodes
    ensures Extends(g, r) && r.nodes == g.nodes
    decreases |refs|
  {
    if refs == [] then
      g
    else
      var e := ViewEdge(g.nodes, db, source, refs[0]);
      var more := if e.targetId in g.nodes then PutEdge(g, e) else g;
      var r := LinkViewRefs(more, db, source, refs[1..]);
      ExtendsTransitive(g, more, r);
      r
  }

  function LinkViews(g: Network, db: string, schema: string, views: seq<CatalogView>): (r: Network)
    requires forall v :: v in views ==> ViewNodeId(db, schema, v.name) in g.nodes
    ensures Extends(g, r) && r.nodes == g.nodes
    decreases |views|
  {
    if views == [] then
      g
    else
      var more := LinkViewRefs(g, db, ViewNodeId(db, schema, views[0].name), views[0].referencedTables);
      var r := LinkViews(more, db, schema, views[1..]);
      ExtendsTransitive(g, more, r);
      r
  }

  function LinkSchemaViews(g: Network, db: string, schemas: seq<CatalogSchema>): (r: Network)
    requires forall s :: s in schemas ==> Present(g.nodes, db, s)
    ensures Extends(g, r) && r.nodes == g.nodes
    decreases |schemas|
  {
    if schemas == [] then
      g
    else
      assert Present(g.nodes, db, schemas[0]);
      var more := LinkViews(g, db, schemas[0].name, schemas[0].views);
      var r := LinkSchemaViews(more, db, schemas[1..]);
      ExtendsTransitive(g, more, r);
      r
  }

  /** All nodes first, then foreign keys, then views. */
  function WithCatalog(g: Network, db: string, schemas: seq<CatalogSchema>): (r: Network)
    ensures Extends(g, r)
  {
    var start := PutNode(g, Node(DatabaseNodeId(db), ResourceType.Database, db, map[]));
    var nodes := PutSchemas(start, db, schemas);
    var tables := LinkSchemaTables(nodes, db, schemas);
    var r := LinkSchemaViews(tables, db, schemas);
    ExtendsTransitive(g, start, nodes);
    ExtendsTransitive(g, nodes, tables);
    ExtendsTransitive(g, tables, r);
    r
  }

  // ---------------------------------------------------------------------------
  // Application configuration
  // ---------------------------------------------------------------------------

  /** The graph so far and, if a table reference was malformed, that reference: the rest is then not read. */
  datatype Progress = Progress(graph: Network, refused: Option<string>)

  function PutDatabases(g: Network, dbs: seq<DatabaseEntry>): (r: Network)
    ensures Extends(g, r)
    decreases |dbs|
  {
    if dbs == [] then
      g
    else
      var d := dbs[0];
      var more := PutNode(g, Node(DatabaseNodeId(d.name), ResourceType.Database, d.name,
                                  map["production" := Bool(d.production), "critical" := Bool(d.critical)]));
      var r := PutDatabases(more, dbs[1..]);
      ExtendsTransitive(g, more, r);
      r
  }

  function ConfigEdge(source: string, target: string, relationship: string, confidence: real,
                      metadata: map<string, Value>): Dependency
  {
    Dependency(source, target, relationship, Provenance.Configuration, confidence, None, metadata)
  }

  function EnsureTableEdge(g: Network, dependent: string, ref: TableRef): (r: Network)
    requires dependent in g.nodes
    ensures Extends(g, r)
  {
    var more := PutNode(g, Node(ref.NodeId(), ResourceType.Table, ref.Qualified(), map[]));
    var r := PutEdge(more, ConfigEdge(dependent, ref.NodeId(), "reads_or_writes", 0.85, map[]));
    ExtendsTransitive(g, more, r);
    r
  }

  function LinkRefs(g: Network, dependent: string, refs: seq<string>): (r: Progress)
    requires dependent in g.nodes
    ensures Extends(g, r.graph)
    decreases |refs|
  {
    if refs == [] then
      Progress(g, None)
    else if ParseRef(refs[0]).None? then
      Progress(g, Some(refs[0]))
    else
      var more := EnsureTableEdge(g, dependent, ParseRef(refs[0]).value);
      var r := LinkRefs(more, dependent, refs[1..]);
      ExtendsTransitive(g, more, r.graph);
      r
  }

  function ServiceNode(s: ServiceEntry): Node {
    var pipeline := s.kind == "data_pipeline";
    Node(if pipeline then PipelineNodeId(s.name) else ServiceNodeId(s.name),
         if pipeline then ResourceType.DataPipeline else ResourceType.Service,
         s.name,
         map["production" := Bool(s.production), "critical" := Bool(s.critical), "owner" := OptStr(s.owner),
             "type" := Str(s.kind)])
  }

  function PutServices(g: Network, services: seq<ServiceEntry>): (r: Progress)
    ensures Extends(g, r.graph)
    decreases |services|
  {
    if services == [] then
      Progress(g, None)
    else
      var s := services[0];
      var node := PutNode(g, ServiceNode(s));
      var linked := LinkRefs(node, ServiceNode(s).id, s.readsFrom + s.writesTo);
      ExtendsTransitive(g, node, linked.graph);
      if linked.refused.Some? then
        linked
      else
        var r := PutServices(linked.graph, services[1..]);
        ExtendsTransitive(g, linked.graph, r.graph);
        r
  }

  function ReplicationEdge(e: ReplicationEntry, source: TableRef, target: TableRef): Dependency {
    ConfigEdge(target.NodeId(), source.NodeId(), "replication:" + e.mechanism, 0.9,
               map["pipeline_name" := OptStr(e.pipelineName)])
  }

  /** The replica depends on its source. */
  function Replicate(g: Network, e: ReplicationEntry, source: TableRef, target: TableRef): (r: Network)
    ensures Extends(g, r)
  {
    var first := PutNode(g, Node(source.NodeId(), ResourceType.Table, source.Qualified(), map[]));
    var second := PutNode(first, Node(target.NodeId(), ResourceType.ReplicationTarget, target.Qualified(),
                                      map["mechanism" := Str(e.mechanism), "pipeline_name" := OptStr(e.pipelineName)]));
    var r := PutEdge(second, ReplicationEdge(e, source, target));
    ExtendsTransitive(g, first, second);
    ExtendsTransitive(g, second, r);
    r
  }

  function PutReplication(g: Network, entries: seq<ReplicationEntry>): (r: Progress)
    ensures Extends(g, r.graph)
    decreases |entries|
  {
    if entries == [] then
      Progress(g, None)
    else
      var e := entries[0];
      if ParseRef(e.source).None? then
        Progress(g, Some(e.source))
      else if ParseRef(e.target).None? then
        Progress(g, Some(e.target))
      else
        var more := Replicate(g, e, ParseRef(e.source).value, ParseRef(e.target).value);
        var r := PutReplication(more, entries[1..]);
        ExtendsTransitive(g, more, r.graph);
        r
  }

  /** The endpoint, and its edge to the service behind it if the graph has that service. */
  function PutApi(g: Network, a: ApiEntry): (r: Network)
    ensures Extends(g, r) && ApiNodeId(a.name) in r.nodes
  {
    var id, service := ApiNodeId(a.name), ServiceNodeId(a.service);
    var node := PutNode(g, Node(id, ResourceType.ApiEndpoint, a.name, map[]));
    var r := if service in node.nodes then PutEdge(node, ConfigEdge(id, service, "served_by", 0.95, map[])) else node;
    ExtendsTransitive(g, node, r);
    r
  }

  function PutApis(g: Network, apis: seq<ApiEntry>): (r: Progress)
    ensures Extends(g, r.graph)
    decreases |apis|
  {
    if apis == [] then
      Progress(g, None)
    else
      var api := PutApi(g, apis[0]);
      var linked := LinkRefs(api, ApiNodeId(apis[0].name), apis[0].tables);
      ExtendsTransitive(g, api, linked.graph);
      if linked.refused.Some? then
        linked
      else
        var r := PutApis(linked.graph, apis[1..]);
        ExtendsTransitive(g, linked.graph, r.graph);
        r
  }

  function WithConfig(g: Network, c: AppConfig): (r: Progress)
    ensures Extends(g, r.graph)
  {
    var databases := PutDatabases(g, c.databases);
    var services := PutServices(databases, c.services);
    ExtendsTransitive(g, databases, services.graph);
    if services.refused.Some? then
      services
    else
      var replication := PutReplication(services.graph, c.replication);
      ExtendsTransitive(g, services.graph, replication.graph);
      if replication.refused.Some? then
        replication
      else
        var r := PutApis(replication.graph, c.apis);
        ExtendsTransitive(g, replication.graph, r.graph);
        r
  }

  // ---------------------------------------------------------------------------
  // The builder
  // ---------------------------------------------------------------------------

  class DependencyGraphBuilder {
    const graph: DependencyGraph

    constructor ()
      ensures fresh(graph) && graph.Valid() && graph.Model() == Network(map[], [])
    {
      graph := new DependencyGraph();
    }

    method Put(node: Node)
      requires graph.Valid()
      modifies graph
      ensures graph.Valid() && graph.Model() == PutNode(old(graph.Model()), node)
    {
      var _ := graph.AddNode(node);
    }

    /** The graph never refuses an edge of the builder. */
    method Link(e: Dependency)
      requires graph.Valid() && e.sourceId in graph.nodes && e.targetId in graph.nodes && Graded(e)
      modifies graph
      ensures graph.Valid() && graph.Model() == PutEdge(old(graph.Model()), e)
    {
      var added := graph.AddEdge(e);
      assert added.Ok?;
    }

    method AddDatabaseMetadata(db: string, schemas: seq<CatalogSchema>)
      requires graph.Valid()
      modifies graph
      ensures graph.Valid() && graph.Model() == WithCatalog(old(graph.Model()), db, schemas)
    {
      hide LinkSchemaTables, LinkSchemaViews, PutSchemas, PutNode;
      Put(Node(DatabaseNodeId(db), ResourceType.Database, db, map[]));
      ghost var start := graph.Model();
      for i := 0 to |schemas|
        invariant graph.Valid() && PutSchemas(graph.Model(), db, schemas[i..]) == PutSchemas(start, db, schemas)
      {
        NextSchema(graph.Model(), db, schemas, i);
        AddTables(db, schemas[i].name, schemas[i].tables);
        AddViews(db, schemas[i].name, schemas[i].views);
      }
      NoSchemas(graph.Model(), db, schemas);
      LinkAllTables(db, schemas);
      LinkAllViews(db, schemas);
    }

    method AddTables(db: string, schema: string, tables: seq<CatalogTable>)
      requires graph.Valid()
      modifies graph
      ensures graph.Valid() && graph.Model() == PutTables(old(graph.Model()), db, schema, tables)
    {
      for i := 0 to |tables|
        invariant graph.Valid()
        invariant PutTables(graph.Model(), db, schema, tables[i..]) == PutTables(old(graph.Model()), db, schema, tables)
      {
        assert tables[i..][0] == tables[i] && tables[i..][1..] == tables[i + 1..];
        Put(TableNode(db, schema, tables[i]));
      }
    }

    method AddViews(db: string, schema: string, views: seq<CatalogView>)
      requires graph.Valid()
      modifies graph
      ensures graph.Valid() && graph.Model() == PutViews(old(graph.Model()), db, schema, views)
    {
      for i := 0 to |views|
        invariant graph.Valid()
        invariant PutViews(graph.Model(), db, schema, views[i..]) == PutViews(old(graph.Model()), db, schema, views)
      {
        assert views[i..][0] == views[i] && views[i..][1..] == views[i + 1..];
        Put(ViewNode(db, schema, views[i]));
      }
    }

    /** The foreign key loops. */
    method LinkAllTables(db: string, schemas: seq<CatalogSchema>)
      requires graph.Valid() && forall s :: s in schemas ==> Present(graph.nodes, db, s)
      modifies graph
      ensures graph.Valid() && graph.Model() == LinkSchemaTables(old(graph.Model()), db, schemas)
    {
      for i := 0 to |schemas|
        invariant graph.Valid() && graph.nodes == old(graph.nodes)
        invariant LinkSchemaTables(graph.Model(), db, schemas[i..]) == LinkSchemaTables(old(graph.Model()), db, schemas)
      {
        assert schemas[i..][0] == schemas[i] && schemas[i..][1..] == schemas[i + 1..];
        assert Present(graph.nodes, db, schemas[i]);
        var schema, tables := schemas[i].name, schemas[i].tables;
        ghost var g := graph.Model();
        for j := 0 to |tables|
          invariant graph.Valid() && graph.nodes == old(graph.nodes)
          invariant LinkTables(graph.Model(), db, schema, tables[j..]) == LinkTables(g, db, schema, tables)
        {
          assert tables[j..][0] == tables[j] && tables[j..][1..] == tables[j + 1..];
          LinkTable(db, TableNodeId(db, schema, tables[j].name), tables[j].foreignKeys);
        }
      }
    }

    method LinkTable(db: string, source: string, fks: seq<ForeignKey>)
      requires graph.Valid() && source in graph.nodes
      modifies graph
      ensures graph.Valid() && graph.Model() == LinkForeignKeys(old(graph.Model()), db, source, fks)
    {
      for i := 0 to |fks|
        invariant graph.Valid() && graph.nodes == old(graph.nodes)
        invariant LinkForeignKeys(graph.Model(), db, source, fks[i..]) ==
                  LinkForeignKeys(old(graph.Model()), db, source, fks)
      {
        assert fks[i..][0] == fks[i] && fks[i..][1..] == fks[i + 1..];
        var target := graph.NodeById(TableNodeId(db, fks[i].referencedSchema, fks[i].referencedTable));
        if target.None? {
          continue;
        }
        Link(ForeignKeyEdge(db, source, fks[i]));
      }
    }

    /** The view loops. */
    method LinkAllViews(db: string, schemas: seq<CatalogSchema>)
      requires graph.Valid() && forall s :: s in schemas ==> Present(graph.nodes, db, s)
      modifies graph
      ensures graph.Valid() && graph.Model() == LinkSchemaViews(old(graph.Model()), db, schemas)
    {
      for i := 0 to |schemas|
        invariant graph.Valid() && graph.nodes == old(graph.nodes)
        invariant LinkSchemaViews(graph.Model(), db, schemas[i..]) == LinkSchemaViews(old(graph.Model()), db, schemas)
      {
        assert schemas[i..][0] == schemas[i] && schemas[i..][1..] == schemas[i + 1..];
        assert Present(graph.nodes, db, schemas[i]);
        var schema, views := schemas[i].name, schemas[i].views;
        ghost var g := graph.Model();
        for j := 0 to |views|
          invariant graph.Valid() && graph.nodes == old(graph.nodes)
          invariant LinkViews(graph.Model(), db, schema, views[j..]) == LinkViews(g, db, schema, views)
        {
          assert views[j..][0] == views[j] && views[j..][1..] == views[j + 1..];
          LinkView(db, ViewNodeId(db, schema, views[j].name), views[j].referencedTables);
        }
      }
    }

    method LinkView(db: string, source: string, refs: seq<string>)
      requires graph.Valid() && source in graph.nodes
      modifies graph
      ensures graph.Valid() && graph.Model() == LinkViewRefs(old(graph.Model()), db, source, refs)
    {
      for i := 0 to |refs|
        invariant graph.Valid() && graph.nodes == old(graph.nodes)
        invariant LinkViewRefs(graph.Model(), db, source, refs[i..]) == LinkViewRefs(old(graph.Model()), db, source, refs)
      {
        assert refs[i..][0] == refs[i] && refs[i..][1..] == refs[i + 1..];
        var (schema, name) := Partition(refs[i]);
        var candidate := TableNodeId(db, schema, name);
        var node := graph.NodeById(candidate);
        if node.None? {
          candidate := ViewNodeId(db, schema, name);
        }
        node := graph.NodeById(candidate);
        if node.None? {
          continue;
        }
        Link(Dependency(source, candidate, "reads_from", Provenance.DatabaseMetadata, 1.0, None, map[]));
      }
    }

    /** The error names the malformed table reference; what was read before it stays in the graph. */
    method AddAppConfig(c: AppConfig) returns (r: Result<(), string>)
      requires graph.Valid()
      modifies graph
      ensures graph.Valid()
      ensures var p := WithConfig(old(graph.Model()), c);
              graph.Model() == p.graph && r == if p.refused.Some? then Err(p.refused.value) else Ok(())
    {
      hide PutServices, PutReplication, PutApis;
      for i := 0 to |c.databases|
        invariant graph.Valid()
        invariant PutDatabases(graph.Model(), c.databases[i..]) == PutDatabases(old(graph.Model()), c.databases)
      {
        assert c.databases[i..][0] == c.databases[i] && c.databases[i..][1..] == c.databases[i + 1..];
        var d := c.databases[i];
        Put(Node(DatabaseNodeId(d.name), ResourceType.Database, d.name,
                 map["production" := Bool(d.production), "critical" := Bool(d.critical)]));
      }
      r := AddServices(c.services);
      if r.Err? {
        return;
      }
      r := AddReplication(c.replication);
      if r.Err? {
        return;
      }
      r := AddApis(c.apis);
    }

    method AddServices(services: seq<ServiceEntry>) returns (r: Result<(), string>)
      requires graph.Valid()
      modifies graph
      ensures graph.Valid()
      ensures var p := PutServices(old(graph.Model()), services);
              graph.Model() == p.graph && r == if p.refused.Some? then Err(p.refused.value) else Ok(())
    {
      hide LinkRefs, PutNode;
      for i := 0 to |services|
        invariant graph.Valid()
        invariant PutServices(graph.Model(), services[i..]) == PutServices(old(graph.Model()), services)
      {
        assert services[i..][0] == services[i] && services[i..][1..] == services[i + 1..];
        var node := ServiceNode(services[i]);
        Put(node);
        r := EnsureTableEdges(node.id, services[i].readsFrom + services[i].writesTo);
        if r.Err? {
          return;
        }
      }
      r := Ok(());
    }

    method EnsureTableEdges(dependent: string, refs: seq<string>) returns (r: Result<(), string>)
      requires graph.Valid() && dependent in graph.nodes
      modifies graph
      ensures graph.Valid()
      ensures var p := LinkRefs(old(graph.Model()), dependent, refs);
              graph.Model() == p.graph && r == if p.refused.Some? then Err(p.refused.value) else Ok(())
    {
      for i := 0 to |refs|
        invariant graph.Valid() && dependent in graph.nodes
        invariant LinkRefs(graph.Model(), dependent, refs[i..]) == LinkRefs(old(graph.Model()), dependent, refs)
      {
        assert refs[i..][0] == refs[i] && refs[i..][1..] == refs[i + 1..];
        var ref := ParseRef(refs[i]);
        if ref.None? {
          return Err(refs[i]);
        }
        EnsureTable(dependent, ref.value);
      }
      r := Ok(());
    }

    method EnsureTable(dependent: string, ref: TableRef)
      requires graph.Valid() && dependent in graph.nodes
      modifies graph
      ensures graph.Valid() && graph.Model() == EnsureTableEdge(old(graph.Model()), dependent, ref)
    {
      var node := graph.NodeById(ref.NodeId());
      if node.None? {
        Put(Node(ref.NodeId(), ResourceType.Table, ref.Qualified(), map[]));
      }
      Link(ConfigEdge(dependent, ref.NodeId(), "reads_or_writes", 0.85, map[]));
    }

    method AddReplication(entries: seq<ReplicationEntry>) returns (r: Result<(), string>)
      requires graph.Valid()
      modifies graph
      ensures graph.Valid()
      ensures var p := PutReplication(old(graph.Model()), entries);
              graph.Model() == p.graph && r == if p.refused.Some? then Err(p.refused.value) else Ok(())
    {
      hide Replicate;
      for i := 0 to |entries|
        invariant graph.Valid()
        invariant PutReplication(graph.Model(), entries[i..]) == PutReplication(old(graph.Model()), entries)
      {
        assert entries[i..][0] == entries[i] && entries[i..][1..] == entries[i + 1..];
        var source := ParseRef(entries[i].source);
        if source.None? {
          return Err(entries[i].source);
        }
        var target := ParseRef(entries[i].target);
        if target.None? {
          return Err(entries[i].target);
        }
        AddReplica(entries[i], source.value, target.value);
      }
      r := Ok(());
    }

    method AddReplica(e: ReplicationEntry, source: TableRef, target: TableRef)
      requires graph.Valid()
      modifies graph
      ensures graph.Valid() && graph.Model() == Replicate(old(graph.Model()), e, source, target)
    {
      var node := graph.NodeById(source.NodeId());
      if node.None? {
        Put(Node(source.NodeId(), ResourceType.Table, source.Qualified(), map[]));
      }
      node := graph.NodeById(target.NodeId());
      if node.None? {
        Put(Node(target.NodeId(), ResourceType.ReplicationTarget, target.Qualified(),
                 map["mechanism" := Str(e.mechanism), "pipeline_name" := OptStr(e.pipelineName)]));
      }
      Link(ReplicationEdge(e, source, target));
    }

    method AddApis(apis: seq<ApiEntry>) returns (r: Result<(), string>)
      requires graph.Valid()
      modifies graph
      ensures graph.Valid()
      ensures var p := PutApis(old(graph.Model()), apis);
              graph.Model() == p.graph && r == if p.refused.Some? then Err(p.refused.value) else Ok(())
    {
      hide LinkRefs, PutApi;
      for i := 0 to |apis|
        invariant graph.Valid()
        invariant PutApis(graph.Model(), apis[i..]) == PutApis(old(graph.Model()), apis)
      {
        assert apis[i..][0] == apis[i] && apis[i..][1..] == apis[i + 1..];
        AddApi(apis[i]);
        r := EnsureTableEdges(ApiNodeId(apis[i].name), apis[i].tables);
        if r.Err? {
          return;
        }
      }
      r := Ok(());
    }

    method AddApi(a: ApiEntry)
      requires graph.Valid()
      modifies graph
      ensures graph.Valid() && graph.Model() == PutApi(old(graph.Model()), a)
    {
      var id := ApiNodeId(a.name);
      Put(Node(id, ResourceType.ApiEndpoint, a.name, map[]));
      var service := graph.NodeById(ServiceNodeId(a.service));
      if service.Some? {
        Link(ConfigEdge(id, ServiceNodeId(a.service), "served_by", 0.95, map[]));
      }
    }
  }

  lemma NextSchema(g: Network, db: string, schemas: seq<CatalogSchema>, i: nat)
    requires i < |schemas|
    ensures var s := schemas[i];
            PutSchemas(g, db, schemas[i..]) ==
            PutSchemas(PutViews(PutTables(g, db, s.name, s.tables), db, s.name, s.views), db, schemas[i + 1..])
  {
    assert schemas[i..][0] == schemas[i] && schemas[i..][1..] == schemas[i + 1..];
  }

  lemma NoSchemas(g: Network, db: string, schemas: seq<CatalogSchema>)
    ensures PutSchemas(g, db, schemas[|schemas|..]) == g && schemas[0..] == schemas
  {
  }

  // ---------------------------------------------------------------------------
  // Which edges a catalog gives
  // ---------------------------------------------------------------------------

  ghost predicate KeyOf(nodes: map<string, Node>, db: string, source: string, fks: seq<ForeignKey>, e: Dependency) {
    exists fk :: fk in fks && e == ForeignKeyEdge(db, source, fk) && e.targetId in nodes
  }

  ghost predicate KeyOfTable(nodes: map<string, Node>, db: string, schema: string, tables: seq<CatalogTable>, e: Dependency) {
    exists t :: t in tables && KeyOf(nodes, db, TableNodeId(db, schema, t.name), t.foreignKeys, e)
  }

  /** The edge of a foreign key of some table, to a table the graph knows. */
  ghost predicate DeclaredKey(nodes: map<string, Node>, db: string, schemas: seq<CatalogSchema>, e: Dependency) {
    exists s :: s in schemas && KeyOfTable(nodes, db, s.name, s.tables, e)
  }

  ghost predicate RefOf(nodes: map<string, Node>, db: string, source: string, refs: seq<string>, e: Dependency) {
    exists ref :: ref in refs && e == ViewEdge(nodes, db, source, ref) && e.targetId in nodes
  }

  ghost predicate RefOfView(nodes: map<string, Node>, db: string, schema: string, views: seq<CatalogView>, e: Dependency) {
    exists v :: v in views && RefOf(nodes, db, ViewNodeId(db, schema, v.name), v.referencedTables, e)
  }

  /** The edge of a view to a table or view it reads that the graph knows. */
  ghost predicate DeclaredRef(nodes: map<string, Node>, db: string, schemas: seq<CatalogSchema>, e: Dependency) {
    exists s :: s in schemas && RefOfView(nodes, db, s.name, s.views, e)
  }

  function KeyEdges(nodes: map<string, Node>, db: string, source: string, fks: seq<ForeignKey>): seq<Dependency> {
    if fks == [] then []
    else
      var e := ForeignKeyEdge(db, source, fks[0]);
      (if e.targetId in nodes then [e] else []) + KeyEdges(nodes, db, source, fks[1..])
  }

  function TableKeyEdges(nodes: map<string, Node>, db: string, schema: string, tables: seq<CatalogTable>): seq<Dependency> {
    if tables == [] then []
    else
      KeyEdges(nodes, db, TableNodeId(db, schema, tables[0].name), tables[0].foreignKeys)
      + TableKeyEdges(nodes, db, schema, tables[1..])
  }

  /** One edge per foreign key to a known table, in the order the catalog lists them. */
  function AllKeyEdges(nodes: map<string, Node>, db: string, schemas: seq<CatalogSchema>): seq<Dependency> {
    if schemas == [] then []
    else TableKeyEdges(nodes, db, schemas[0].name, schemas[0].tables) + AllKeyEdges(nodes, db, schemas[1..])
  }

  function RefEdges(nodes: map<string, Node>, db: string, source: string, refs: seq<string>): seq<Dependency> {
    if refs == [] then []
    else
      var e := ViewEdge(nodes, db, source, refs[0]);
      (if e.targetId in nodes then [e] else []) + RefEdges(nodes, db, source, refs[1..])
  }

  function ViewRefList(nodes: map<string, Node>, db: string, schema: string, views: seq<CatalogView>): seq<Dependency> {
    if views == [] then []
    else
      RefEdges(nodes, db, ViewNodeId(db, schema, views[0].name), views[0].referencedTables)
      + ViewRefList(nodes, db, schema, views[1..])
  }

  /** One edge per known table or view a view refers to, in the order the catalog lists them. */
  function AllRefEdges(nodes: map<string, Node>, db: string, schemas: seq<CatalogSchema>): seq<Dependency> {
    if schemas == [] then []
    else ViewRefList(nodes, db, schemas[0].name, schemas[0].views) + AllRefEdges(nodes, db, schemas[1..])
  }

  lemma {:induction false} KeysInOrder(g: Network, db: string, source: string, fks: seq<ForeignKey>)
    requires source in g.nodes
    ensures LinkForeignKeys(g, db, source, fks).edges == g.edges + KeyEdges(g.nodes, db, source, fks)
    decreases |fks|
  {
    if fks != [] {
      var e := ForeignKeyEdge(db, source, fks[0]);
      var more := if e.targetId in g.nodes then PutEdge(g, e) else g;
      KeysInOrder(more, db, source, fks[1..]);
      Regroup(g.edges, if e.targetId in g.nodes then [e] else [], KeyEdges(g.nodes, db, source, fks[1..]));
    }
  }

  lemma {:induction false} TableKeysInOrder(g: Network, db: string, schema: string, tables: seq<CatalogTable>)
    requires forall t :: t in tables ==> TableNodeId(db, schema, t.name) in g.nodes
    ensures LinkTables(g, db, schema, tables).edges == g.edges + TableKeyEdges(g.nodes, db, schema, tables)
    decreases |tables|
  {
    if tables != [] {
      var source := TableNodeId(db, schema, tables[0].name);
      KeysInOrder(g, db, source, tables[0].foreignKeys);
      TableKeysInOrder(LinkForeignKeys(g, db, source, tables[0].foreignKeys), db, schema, tables[1..]);
      Regroup(g.edges, KeyEdges(g.nodes, db, source, tables[0].foreignKeys),
              TableKeyEdges(g.nodes, db, schema, tables[1..]));
    }
  }

  lemma {:induction false} AllKeysInOrder(g: Network, db: string, schemas: seq<CatalogSchema>)
    requires forall s :: s in schemas ==> Present(g.nodes, db, s)
    ensures LinkSchemaTables(g, db, schemas).edges == g.edges + AllKeyEdges(g.nodes, db, schemas)
    decreases |schemas|
  {
    if schemas != [] {
      var s := schemas[0];
      assert Present(g.nodes, db, s);
      TableKeysInOrder(g, db, s.name, s.tables);
      AllKeysInOrder(LinkTables(g, db, s.name, s.tables), db, schemas[1..]);
      Regroup(g.edges, TableKeyEdges(g.nodes, db, s.name, s.tables), AllKeyEdges(g.nodes, db, schemas[1..]));
    }
  }

  lemma {:induction false} RefsInOrder(g: Network, db: string, source: string, refs: seq<string>)
    requires source in g.nodes
    ensures LinkViewRefs(g, db, source, refs).edges == g.edges + RefEdges(g.nodes, db, source, refs)
    decreases |refs|
  {
    if refs != [] {
      var e := ViewEdge(g.nodes, db, source, refs[0]);
      var more := if e.targetId in g.nodes then PutEdge(g, e) else g;
      RefsInOrder(more, db, source, refs[1..]);
      Regroup(g.edges, if e.targetId in g.nodes then [e] else [], RefEdges(g.nodes, db, source, refs[1..]));
    }
  }

  lemma {:induction false} ViewRefsInOrder(g: Network, db: string, schema: string, views: seq<CatalogView>)
    requires forall v :: v in views ==> ViewNodeId(db, schema, v.name) in g.nodes
    ensures LinkViews(g, db, schema, views).edges == g.edges + ViewRefList(g.nodes, db, schema, views)
    decreases |views|
  {
    if views != [] {
      var source := ViewNodeId(db, schema, views[0].name);
      RefsInOrder(g, db, source, views[0].referencedTables);
      ViewRefsInOrder(LinkViewRefs(g, db, source, views[0].referencedTables), db, schema, views[1..]);
      Regroup(g.edges, RefEdges(g.nodes, db, source, views[0].referencedTables),
              ViewRefList(g.nodes, db, schema, views[1..]));
    }
  }

  lemma {:induction false} AllRefsInOrder(g: Network, db: string, schemas: seq<CatalogSchema>)
    requires forall s :: s in schemas ==> Present(g.nodes, db, s)
    ensures LinkSchemaViews(g, db, schemas).edges == g.edges + AllRefEdges(g.nodes, db, schemas)
    decreases |schemas|
  {
    if schemas != [] {
      var s := schemas[0];
      assert Present(g.nodes, db, s);
      ViewRefsInOrder(g, db, s.name, s.views);
      AllRefsInOrder(LinkViews(g, db, s.name, s.views), db, schemas[1..]);
      Regroup(g.edges, ViewRefList(g.nodes, db, s.name, s.views), AllRefEdges(g.nodes, db, schemas[1..]));
    }
  }

  /** How often and in which order: first one edge per foreign key, then one per reference of a view. */
  lemma CatalogEdgesInOrder(g: Network, db: string, schemas: seq<CatalogSchema>)
    ensures var r := WithCatalog(g, db, schemas);
            r.edges == g.edges + AllKeyEdges(r.nodes, db, schemas) + AllRefEdges(r.nodes, db, schemas)
  {
    hide LinkSchemaTables, LinkSchemaViews;
    var nodes := PutSchemas(PutNode(g, Node(DatabaseNodeId(db), ResourceType.Database, db, map[])), db, schemas);
    AllKeysInOrder(nodes, db, schemas);
    AllRefsInOrder(LinkSchemaTables(nodes, db, schemas), db, schemas);
  }

  lemma {:induction false} KeyEdgesAre(nodes: map<string, Node>, db: string, source: string, fks: seq<ForeignKey>,
                                       e: Dependency)
    ensures e in KeyEdges(nodes, db, source, fks) <==> KeyOf(nodes, db, source, fks, e)
    decreases |fks|
  {
    if fks != [] {
      KeyEdgesAre(nodes, db, source, fks[1..], e);
      assert forall fk :: fk in fks <==> fk == fks[0] || fk in fks[1..];
    }
  }

  lemma {:induction false} TableKeyEdgesAre(nodes: map<string, Node>, db: string, schema: string,
                                            tables: seq<CatalogTable>, e: Dependency)
    ensures e in TableKeyEdges(nodes, db, schema, tables) <==> KeyOfTable(nodes, db, schema, tables, e)
    decreases |tables|
  {
    hide KeyOf;
    if tables != [] {
      KeyEdgesAre(nodes, db, TableNodeId(db, schema, tables[0].name), tables[0].foreignKeys, e);
      TableKeyEdgesAre(nodes, db, schema, tables[1..], e);
      assert forall t :: t in tables <==> t == tables[0] || t in tables[1..];
    }
  }

  lemma {:induction false} AllKeyEdgesAre(nodes: map<string, Node>, db: string, schemas: seq<CatalogSchema>, e: Dependency)
    ensures e in AllKeyEdges(nodes, db, schemas) <==> DeclaredKey(nodes, db, schemas, e)
    decreases |schemas|
  {
    hide KeyOfTable;
    if schemas != [] {
      TableKeyEdgesAre(nodes, db, schemas[0].name, schemas[0].tables, e);
      AllKeyEdgesAre(nodes, db, schemas[1..], e);
      assert forall s :: s in schemas <==> s == schemas[0] || s in schemas[1..];
    }
  }

  lemma {:induction false} RefEdgesAre(nodes: map<string, Node>, db: string, source: string, refs: seq<string>,
                                       e: Dependency)
    ensures e in RefEdges(nodes, db, source, refs) <==> RefOf(nodes, db, source, refs, e)
    decreases |refs|
  {
    if refs != [] {
      RefEdgesAre(nodes, db, source, refs[1..], e);
      assert forall ref :: ref in refs <==> ref == refs[0] || ref in refs[1..];
    }
  }

  lemma {:induction false} ViewRefListIs(nodes: map<string, Node>, db: string, schema: string, views: seq<CatalogView>,
                                         e: Dependency)
    ensures e in ViewRefList(nodes, db, schema, views) <==> RefOfView(nodes, db, schema, views, e)
    decreases |views|
  {
    hide RefOf;
    if views != [] {
      RefEdgesAre(nodes, db, ViewNodeId(db, schema, views[0].name), views[0].referencedTables, e);
      ViewRefListIs(nodes, db, schema, views[1..], e);
      assert forall v :: v in views <==> v == views[0] || v in views[1..];
    }
  }

  lemma {:induction false} AllRefEdgesAre(nodes: map<string, Node>, db: string, schemas: seq<CatalogSchema>, e: Dependency)
    ensures e in AllRefEdges(nodes, db, schemas) <==> DeclaredRef(nodes, db, schemas, e)
    decreases |schemas|
  {
    hide RefOfView;
    if schemas != [] {
      ViewRefListIs(nodes, db, schemas[0].name, schemas[0].views, e);
      AllRefEdgesAre(nodes, db, schemas[1..], e);
      assert forall s :: s in schemas <==> s == schemas[0] || s in schemas[1..];
    }
  }

  /** A catalog adds exactly the edges its foreign keys and views declare between things the graph knows. */
  lemma CatalogEdgesAreDeclared(g: Network, db: string, schemas: seq<CatalogSchema>, e: Dependency)
    ensures var r := WithCatalog(g, db, schemas);
            && (e in r.edges <==> e in g.edges || DeclaredKey(r.nodes, db, schemas, e) || DeclaredRef(r.nodes, db, schemas, e))
            && (forall s :: s in schemas ==> Present(r.nodes, db, s))
  {
    hide DeclaredKey, DeclaredRef, LinkSchemaTables, LinkSchemaViews;
    CatalogEdgesInOrder(g, db, schemas);
    AllKeyEdgesAre(WithCatalog(g, db, schemas).nodes, db, schemas, e);
    AllRefEdgesAre(WithCatalog(g, db, schemas).nodes, db, schemas, e);
  }

  /** A table with a foreign key is one hop downstream of the table it references. */
  lemma ReferencingTableIsDownstream(g: Network, db: string, schemas: seq<CatalogSchema>, s: CatalogSchema,
                                     t: CatalogTable, fk: ForeignKey, k: nat)
    requires g.WellFormed() && k >= 1
    requires s in schemas && t in s.tables && fk in t.foreignKeys
    requires TableNodeId(db, fk.referencedSchema, fk.referencedTable) in WithCatalog(g, db, schemas).nodes
    ensures var r := WithCatalog(g, db, schemas);
            var from, to := TableNodeId(db, fk.referencedSchema, fk.referencedTable), TableNodeId(db, s.name, t.name);
            && r.WellFormed()
            && exists i :: 0 <= i < |Reach(r, Direction.Incoming, from, k)|
                        && Reach(r, Direction.Incoming, from, k)[i].node.id == to
                        && Reach(r, Direction.Incoming, from, k)[i].hops == 1
  {
    hide WithCatalog;
    var r, source := WithCatalog(g, db, schemas), TableNodeId(db, s.name, t.name);
    var e := ForeignKeyEdge(db, source, fk);
    ExtendsWellFormed(g, r);
    CatalogEdgesAreDeclared(g, db, schemas, e);
    assert KeyOf(r.nodes, db, source, t.foreignKeys, e);
    assert KeyOfTable(r.nodes, db, s.name, s.tables, e);
    assert DeclaredKey(r.nodes, db, schemas, e);
    assert [e][..0] == [];
    assert IsWalk(r.edges, Direction.Incoming, e.targetId, e.sourceId, [e]);
    assert HasWalk(r.edges, Direction.Incoming, e.targetId, e.sourceId, 1);
    ReachIsExact(r, Direction.Incoming, e.targetId, k, e.sourceId, 1);
  }

  // ---------------------------------------------------------------------------
  // Which edges a configuration gives
  // ---------------------------------------------------------------------------

  /** The edge of one well-formed reference. */
  ghost predicate TableUse(dependent: string, ref: string, e: Dependency) {
    ParseRef(ref).Some? && e == ConfigEdge(dependent, ParseRef(ref).value.NodeId(), "reads_or_writes", 0.85, map[])
  }

  ghost predicate UsedTable(dependent: string, refs: seq<string>, e: Dependency) {
    exists ref :: ref in refs && TableUse(dependent, ref, e)
  }

  ghost predicate Malformed(refs: seq<string>) {
    exists ref :: ref in refs && ParseRef(ref).None?
  }

  /** A list of references is refused exactly when one of them is malformed. */
  lemma {:induction false} RefsAreRefused(g: Network, dependent: string, refs: seq<string>)
    requires dependent in g.nodes
    ensures var r := LinkRefs(g, dependent, refs);
            && (r.refused.Some? <==> Malformed(refs))
            && (r.refused.Some? ==> r.refused.value in refs && ParseRef(r.refused.value).None?)
    decreases |refs|
  {
    hide ParseRef, EnsureTableEdge;
    if refs != [] {
      assert forall ref :: ref in refs <==> ref == refs[0] || ref in refs[1..];
      if ParseRef(refs[0]).Some? {
        RefsAreRefused(EnsureTableEdge(g, dependent, ParseRef(refs[0]).value), dependent, refs[1..]);
      }
    }
  }

  /** The edges of a list of references: one for each, in order. */
  function UseEdges(dependent: string, refs: seq<string>): seq<Dependency> {
    if refs == [] then []
    else
      (if ParseRef(refs[0]).Some? then
         [ConfigEdge(dependent, ParseRef(refs[0]).value.NodeId(), "reads_or_writes", 0.85, map[])]
       else
         [])
      + UseEdges(dependent, refs[1..])
  }

  lemma {:induction false} UseEdgesAre(dependent: string, refs: seq<string>, e: Dependency)
    ensures e in UseEdges(dependent, refs) <==> UsedTable(dependent, refs, e)
    decreases |refs|
  {
    hide ParseRef;
    if refs != [] {
      UseEdgesAre(dependent, refs[1..], e);
      assert forall ref :: ref in refs <==> ref == refs[0] || ref in refs[1..];
      assert UsedTable(dependent, refs, e) <==> TableUse(dependent, refs[0], e) || UsedTable(dependent, refs[1..], e);
    }
  }

  /** An accepted list of references adds exactly one edge for each, in order; a table named twice is used twice. */
  lemma {:induction false} RefsAreLinked(g: Network, dependent: string, refs: seq<string>)
    requires dependent in g.nodes && LinkRefs(g, dependent, refs).refused.None?
    ensures LinkRefs(g, dependent, refs).graph.edges == g.edges + UseEdges(dependent, refs)
    ensures forall e :: e in UseEdges(dependent, refs) <==> UsedTable(dependent, refs, e)
    decreases |refs|
  {
    hide ParseRef, EnsureTableEdge, UsedTable;
    if refs != [] {
      var ref := ParseRef(refs[0]).value;
      var more := EnsureTableEdge(g, dependent, ref);
      RefsAreLinked(more, dependent, refs[1..]);
      EnsuredEdge(g, dependent, ref);
      Regroup(g.edges, [ConfigEdge(dependent, ref.NodeId(), "reads_or_writes", 0.85, map[])],
              UseEdges(dependent, refs[1..]));
    }
    forall e ensures e in UseEdges(dependent, refs) <==> UsedTable(dependent, refs, e) {
      UseEdgesAre(dependent, refs, e);
    }
  }

  lemma EnsuredEdge(g: Network, dependent: string, ref: TableRef)
    requires dependent in g.nodes
    ensures EnsureTableEdge(g, dependent, ref).edges ==
            g.edges + [ConfigEdge(dependent, ref.NodeId(), "reads_or_writes", 0.85, map[])]
  {
  }

  function ServiceEdges(services: seq<ServiceEntry>): seq<Dependency> {
    if services == [] then []
    else
      UseEdges(ServiceNode(services[0]).id, services[0].readsFrom + services[0].writesTo) + ServiceEdges(services[1..])
  }

  function ReplicaEdges(entries: seq<ReplicationEntry>): seq<Dependency> {
    if entries == [] then []
    else
      (if ParseRef(entries[0].source).Some? && ParseRef(entries[0].target).Some? then
         [ReplicationEdge(entries[0], ParseRef(entries[0].source).value, ParseRef(entries[0].target).value)]
       else
         [])
      + ReplicaEdges(entries[1..])
  }

  function ApiEdge(a: ApiEntry): Dependency {
    ConfigEdge(ApiNodeId(a.name), ServiceNodeId(a.service), "served_by", 0.95, map[])
  }

  /** The edges of the endpoints, given which services are known. */
  function ApiEdges(nodes: map<string, Node>, apis: seq<ApiEntry>): seq<Dependency> {
    if apis == [] then []
    else
      (if ServiceNodeId(apis[0].service) in nodes then [ApiEdge(apis[0])] else [])
      + UseEdges(ApiNodeId(apis[0].name), apis[0].tables)
      + ApiEdges(nodes, apis[1..])
  }

  lemma {:induction false} ServicesInOrder(g: Network, services: seq<ServiceEntry>)
    requires PutServices(g, services).refused.None?
    ensures PutServices(g, services).graph.edges == g.edges + ServiceEdges(services)
    decreases |services|
  {
    hide LinkRefs, ParseRef, UseEdges;
    if services != [] {
      var s := services[0];
      var node, refs := PutNode(g, ServiceNode(s)), s.readsFrom + s.writesTo;
      RefsAreLinked(node, ServiceNode(s).id, refs);
      ServicesInOrder(LinkRefs(node, ServiceNode(s).id, refs).graph, services[1..]);
      Regroup(g.edges, UseEdges(ServiceNode(s).id, refs), ServiceEdges(services[1..]));
    }
  }

  lemma {:induction false} ReplicasInOrder(g: Network, entries: seq<ReplicationEntry>)
    requires PutReplication(g, entries).refused.None?
    ensures PutReplication(g, entries).graph.edges == g.edges + ReplicaEdges(entries)
    decreases |entries|
  {
    hide ParseRef;
    if entries != [] {
      var e := entries[0];
      var source, target := ParseRef(e.source).value, ParseRef(e.target).value;
      ReplicasInOrder(Replicate(g, e, source, target), entries[1..]);
      Regroup(g.edges, [ReplicationEdge(e, source, target)], ReplicaEdges(entries[1..]));
    }
  }

  lemma DifferentKinds(id: TableRef, api: string, service: string)
    ensures ServiceNodeId(service) != id.NodeId() && ServiceNodeId(service) != ApiNodeId(api)
  {
    assert ServiceNodeId(service)[0] == 's' && id.NodeId()[0] == 't' && ApiNodeId(api)[0] == 'a';
  }

  /** References and endpoints add no service. */
  lemma {:induction false} RefsAddNoService(g: Network, dependent: string, refs: seq<string>, service: string)
    requires dependent in g.nodes
    ensures ServiceNodeId(service) in LinkRefs(g, dependent, refs).graph.nodes <==> ServiceNodeId(service) in g.nodes
    decreases |refs|
  {
    hide ParseRef;
    if refs != [] && ParseRef(refs[0]).Some? {
      var ref := ParseRef(refs[0]).value;
      DifferentKinds(ref, "", service);
      RefsAddNoService(EnsureTableEdge(g, dependent, ref), dependent, refs[1..], service);
    }
  }

  lemma {:induction false} ApisAddNoService(g: Network, apis: seq<ApiEntry>, service: string)
    ensures ServiceNodeId(service) in PutApis(g, apis).graph.nodes <==> ServiceNodeId(service) in g.nodes
    decreases |apis|
  {
    hide LinkRefs;
    if apis != [] {
      var api := PutApi(g, apis[0]);
      DifferentKinds(TableRef("", "", ""), apis[0].name, service);
      RefsAddNoService(api, ApiNodeId(apis[0].name), apis[0].tables, service);
      ApisAddNoService(LinkRefs(api, ApiNodeId(apis[0].name), apis[0].tables).graph, apis[1..], service);
    }
  }

  lemma {:induction false} ApisInOrder(g: Network, apis: seq<ApiEntry>, nodes: map<string, Node>)
    requires PutApis(g, apis).refused.None?
    requires forall name :: ServiceNodeId(name) in nodes <==> ServiceNodeId(name) in g.nodes
    ensures PutApis(g, apis).graph.edges == g.edges + ApiEdges(nodes, apis)
    decreases |apis|
  {
    hide LinkRefs, UseEdges, ServiceNodeId;
    if apis != [] {
      var a, id := apis[0], ApiNodeId(apis[0].name);
      var api := PutApi(g, a);
      var linked := LinkRefs(api, id, a.tables).graph;
      DifferentKinds(TableRef("", "", ""), a.name, a.service);
      RefsAreLinked(api, id, a.tables);
      forall name ensures ServiceNodeId(name) in nodes <==> ServiceNodeId(name) in linked.nodes {
        DifferentKinds(TableRef("", "", ""), a.name, name);
        RefsAddNoService(api, id, a.tables, name);
      }
      ApisInOrder(linked, apis[1..], nodes);
      ApiRegroup(g, a, nodes, apis[1..]);
    }
  }

  lemma ApiRegroup(g: Network, a: ApiEntry, nodes: map<string, Node>, rest: seq<ApiEntry>)
    requires ServiceNodeId(a.service) in nodes <==> ServiceNodeId(a.service) in PutApi(g, a).nodes
    ensures PutApi(g, a).edges + UseEdges(ApiNodeId(a.name), a.tables) + ApiEdges(nodes, rest)
            == g.edges + ((if ServiceNodeId(a.service) in nodes then [ApiEdge(a)] else [])
                          + UseEdges(ApiNodeId(a.name), a.tables) + ApiEdges(nodes, rest))
  {
    hide UseEdges, ApiEdges, ServiceNodeId;
  }

  /**
   * The edges of an accepted configuration, in order: the table uses of the services, the replications, and for each
   * endpoint the service behind it, if that is known, and its table uses.
   */
  lemma ConfigEdgesInOrder(g: Network, c: AppConfig)
    requires WithConfig(g, c).refused.None?
    ensures var r := WithConfig(g, c).graph;
            r.edges == g.edges + ServiceEdges(c.services) + ReplicaEdges(c.replication) + ApiEdges(r.nodes, c.apis)
  {
    hide PutDatabases, PutServices, PutReplication, PutApis, ServiceNodeId;
    var databases := PutDatabases(g, c.databases);
    DatabasesAddNoEdge(g, c.databases);
    var services := PutServices(databases, c.services).graph;
    ServicesInOrder(databases, c.services);
    var replication := PutReplication(services, c.replication).graph;
    ReplicasInOrder(services, c.replication);
    var r := PutApis(replication, c.apis).graph;
    forall name ensures ServiceNodeId(name) in r.nodes <==> ServiceNodeId(name) in replication.nodes {
      ApisAddNoService(replication, c.apis, name);
    }
    ApisInOrder(replication, c.apis, r.nodes);
  }

  lemma {:induction false} DatabasesAddNoEdge(g: Network, dbs: seq<DatabaseEntry>)
    ensures PutDatabases(g, dbs).edges == g.edges
    decreases |dbs|
  {
    if dbs != [] {
      var d := dbs[0];
      DatabasesAddNoEdge(PutNode(g, Node(DatabaseNodeId(d.name), ResourceType.Database, d.name,
                                         map["production" := Bool(d.production), "critical" := Bool(d.critical)])),
                         dbs[1..]);
    }
  }

  ghost predicate ServiceUse(services: seq<ServiceEntry>, e: Dependency) {
    exists s :: s in services && UsedTable(ServiceNode(s).id, s.readsFrom + s.writesTo, e)
  }

  ghost predicate Replicated(entries: seq<ReplicationEntry>, e: Dependency) {
    exists entry :: entry in entries && ReplicaOf(entry, e)
  }

  predicate ReplicaOf(entry: ReplicationEntry, e: Dependency) {
    && ParseRef(entry.source).Some? && ParseRef(entry.target).Some?
    && e == ReplicationEdge(entry, ParseRef(entry.source).value, ParseRef(entry.target).value)
  }

  ghost predicate ApiUse(nodes: map<string, Node>, apis: seq<ApiEntry>, e: Dependency) {
    exists a :: a in apis && ApiHas(nodes, a, e)
  }

  ghost predicate ApiHas(nodes: map<string, Node>, a: ApiEntry, e: Dependency) {
    (ServiceNodeId(a.service) in nodes && e == ApiEdge(a)) || UsedTable(ApiNodeId(a.name), a.tables, e)
  }

  lemma {:induction false} ServiceEdgesAre(services: seq<ServiceEntry>, e: Dependency)
    ensures e in ServiceEdges(services) <==> ServiceUse(services, e)
    decreases |services|
  {
    hide UseEdges, UsedTable;
    if services != [] {
      ServiceEdgesAre(services[1..], e);
      UseEdgesAre(ServiceNode(services[0]).id, services[0].readsFrom + services[0].writesTo, e);
      assert forall s :: s in services <==> s == services[0] || s in services[1..];
    }
  }

  lemma {:induction false} ReplicaEdgesAre(entries: seq<ReplicationEntry>, e: Dependency)
    ensures e in ReplicaEdges(entries) <==> Replicated(entries, e)
    decreases |entries|
  {
    hide ParseRef;
    if entries != [] {
      ReplicaEdgesAre(entries[1..], e);
      assert forall x :: x in entries <==> x == entries[0] || x in entries[1..];
      assert Replicated(entries, e) <==> ReplicaOf(entries[0], e) || Replicated(entries[1..], e);
    }
  }

  lemma {:induction false} ApiEdgesAre(nodes: map<string, Node>, apis: seq<ApiEntry>, e: Dependency)
    ensures e in ApiEdges(nodes, apis) <==> ApiUse(nodes, apis, e)
    decreases |apis|
  {
    hide UseEdges, UsedTable;
    if apis != [] {
      ApiEdgesAre(nodes, apis[1..], e);
      UseEdgesAre(ApiNodeId(apis[0].name), apis[0].tables, e);
      assert forall a :: a in apis <==> a == apis[0] || a in apis[1..];
      assert ApiUse(nodes, apis, e) <==> ApiHas(nodes, apis[0], e) || ApiUse(nodes, apis[1..], e);
    }
  }

  /** An accepted configuration adds exactly the edges its services, replications and endpoints declare. */
  lemma ConfigEdgesAreDeclared(g: Network, c: AppConfig, e: Dependency)
    requires WithConfig(g, c).refused.None?
    ensures var r := WithConfig(g, c).graph;
            e in r.edges <==>
              e in g.edges || ServiceUse(c.services, e) || Replicated(c.replication, e) || ApiUse(r.nodes, c.apis, e)
  {
    hide WithConfig, ServiceUse, Replicated, ApiUse;
    ConfigEdgesInOrder(g, c);
    ServiceEdgesAre(c.services, e);
    ReplicaEdgesAre(c.replication, e);
    ApiEdgesAre(WithConfig(g, c).graph.nodes, c.apis, e);
  }

  // ---------------------------------------------------------------------------
  // When a configuration is refused
  // ---------------------------------------------------------------------------

  ghost predicate MalformedService(services: seq<ServiceEntry>) {
    exists s :: s in services && Malformed(s.readsFrom + s.writesTo)
  }

  ghost predicate MalformedReplica(entries: seq<ReplicationEntry>) {
    exists e :: e in entries && BadReplica(e)
  }

  predicate BadReplica(e: ReplicationEntry) {
    ParseRef(e.source).None? || ParseRef(e.target).None?
  }

  ghost predicate MalformedApi(apis: seq<ApiEntry>) {
    exists a :: a in apis && Malformed(a.tables)
  }

  lemma {:induction false} ServicesAreRefused(g: Network, services: seq<ServiceEntry>)
    ensures PutServices(g, services).refused.Some? <==> MalformedService(services)
    decreases |services|
  {
    hide LinkRefs, Malformed;
    if services != [] {
      var s := services[0];
      var node, refs := PutNode(g, ServiceNode(s)), s.readsFrom + s.writesTo;
      RefsAreRefused(node, ServiceNode(s).id, refs);
      ServicesAreRefused(LinkRefs(node, ServiceNode(s).id, refs).graph, services[1..]);
      assert forall x :: x in services <==> x == s || x in services[1..];
    }
  }

  lemma {:induction false} ReplicationIsRefused(g: Network, entries: seq<ReplicationEntry>)
    ensures PutReplication(g, entries).refused.Some? <==> MalformedReplica(entries)
    decreases |entries|
  {
    hide ParseRef;
    if entries != [] {
      var e := entries[0];
      assert forall x :: x in entries <==> x == e || x in entries[1..];
      assert MalformedReplica(entries) <==> BadReplica(e) || MalformedReplica(entries[1..]);
      if !BadReplica(e) {
        ReplicationIsRefused(Replicate(g, e, ParseRef(e.source).value, ParseRef(e.target).value), entries[1..]);
      }
    }
  }

  lemma {:induction false} ApisAreRefused(g: Network, apis: seq<ApiEntry>)
    ensures PutApis(g, apis).refused.Some? <==> MalformedApi(apis)
    decreases |apis|
  {
    hide LinkRefs, Malformed;
    if apis != [] {
      var a := apis[0];
      RefsAreRefused(PutApi(g, a), ApiNodeId(a.name), a.tables);
      ApisAreRefused(LinkRefs(PutApi(g, a), ApiNodeId(a.name), a.tables).graph, apis[1..]);
      assert forall x :: x in apis <==> x == a || x in apis[1..];
    }
  }

  /** A configuration is refused exactly when some reference in it does not have three parts. */
  lemma ConfigIsRefused(g: Network, c: AppConfig)
    ensures WithConfig(g, c).refused.Some? <==>
            MalformedService(c.services) || MalformedReplica(c.replication) || MalformedApi(c.apis)
  {
    hide PutDatabases, PutServices, PutReplication, PutApis, MalformedService, MalformedReplica, MalformedApi;
    var databases := PutDatabases(g, c.databases);
    var services := PutServices(databases, c.services);
    ServicesAreRefused(databases, c.services);
    var replication := PutReplication(services.graph, c.replication);
    ReplicationIsRefused(services.graph, c.replication);
    ApisAreRefused(replication.graph, c.apis);
  }

  /** If the services are accepted, all their references are well formed. */
  lemma {:induction false} ServicesAreWellFormed(g: Network, services: seq<ServiceEntry>, i: nat, ref: string)
    requires i < |services| && ref in services[i].readsFrom + services[i].writesTo
    requires PutServices(g, services).refused.None?
    ensures ParseRef(ref).Some?
    decreases |services|
  {
    hide LinkRefs, ParseRef;
    var s := services[0];
    var node := PutNode(g, ServiceNode(s));
    if i > 0 {
      ServicesAreWellFormed(LinkRefs(node, ServiceNode(s).id, s.readsFrom + s.writesTo).graph, services[1..], i - 1, ref);
    } else {
      RefsAreRefused(node, ServiceNode(s).id, s.readsFrom + s.writesTo);
    }
  }

  /** If the services are accepted, each of them depends on all its tables. */
  lemma ServicesAreLinked(g: Network, services: seq<ServiceEntry>, i: nat, ref: string)
    requires i < |services| && ref in services[i].readsFrom + services[i].writesTo
    requires PutServices(g, services).refused.None?
    ensures ParseRef(ref).Some?
    ensures ConfigEdge(ServiceNode(services[i]).id, ParseRef(ref).value.NodeId(), "reads_or_writes", 0.85, map[])
            in PutServices(g, services).graph.edges
  {
    hide ParseRef, PutServices;
    ServicesAreWellFormed(g, services, i, ref);
    ServicesInOrder(g, services);
    var s := services[i];
    var e := ConfigEdge(ServiceNode(s).id, ParseRef(ref).value.NodeId(), "reads_or_writes", 0.85, map[]);
    assert TableUse(ServiceNode(s).id, ref, e);
    assert UsedTable(ServiceNode(s).id, s.readsFrom + s.writesTo, e);
    assert s in services;
    ServiceEdgesAre(services, e);
  }

  // ---------------------------------------------------------------------------
  // What holds after every run of the builder
  // ---------------------------------------------------------------------------

  datatype Input = Catalog(db: string, schemas: seq<CatalogSchema>) | Config(config: AppConfig)

  /** The graph after any sequence of calls, those that were cut short by a malformed reference included. */
  function Build(inputs: seq<Input>): Network {
    if inputs == [] then
      Network(map[], [])
    else
      var g, last := Build(inputs[..|inputs| - 1]), inputs[|inputs| - 1];
      match last
      case Catalog(db, schemas) => WithCatalog(g, db, schemas)
      case Config(config) => WithConfig(g, config).graph
  }

  lemma ExtendsWellFormed(g: Network, r: Network)
    requires g.WellFormed() && Extends(g, r)
    ensures r.WellFormed()
    ensures (forall e :: e in g.edges ==> Graded(e)) ==> forall e :: e in r.edges ==> Graded(e)
  {
    forall e | e in r.edges
      ensures e.sourceId in r.nodes && e.targetId in r.nodes && (Graded(e) || e in g.edges)
    {
      var i :| 0 <= i < |r.edges| && r.edges[i] == e;
      assert i < |g.edges| ==> g.edges[i] == e && e in g.edges;
    }
  }

  /** Whatever was fed to the builder, edges join known nodes and confidence 1 means a catalog fact. */
  lemma {:induction false} BuildIsSound(inputs: seq<Input>)
    ensures Build(inputs).WellFormed()
    ensures forall e :: e in Build(inputs).edges ==> Graded(e)
  {
    hide WithCatalog, WithConfig;
    if inputs != [] {
      var g := Build(inputs[..|inputs| - 1]);
      BuildIsSound(inputs[..|inputs| - 1]);
      ExtendsWellFormed(g, Build(inputs));
    }
  }

  lemma {:induction false} WalkEdges(edges: seq<Dependency>, dir: Direction, a: string, b: string, w: seq<Dependency>)
    requires IsWalk(edges, dir, a, b, w)
    ensures forall e :: e in w ==> e in edges
    decreases |w|
  {
    if w != [] {
      var n := |w| - 1;
      WalkEdges(edges, dir, a, Near(dir, w[n]), w[..n]);
      assert forall e :: e in w ==> e in w[..n] || e == w[n];
    }
  }

  lemma {:induction false} PowerFalls(b: real, m: nat, n: nat)
    requires 0.0 <= b <= 1.0 && m <= n
    ensures 0.0 <= Power(b, n) <= Power(b, m)
    decreases n
  {
    if m < n {
      PowerFalls(b, m, n - 1);
      ScaleDown(Power(b, n - 1), b, Power(b, m), 1.0);
      ScaleDown(0.0, 0.0, Power(b, n - 1), b);
    } else if n > 0 {
      PowerFalls(b, m - 1, n - 1);
      ScaleDown(0.0, 0.0, Power(b, n - 1), b);
    }
  }

  /**
   * On a built graph, the path behind every listed resource is certain exactly when all its edges are catalog facts,
   * and within `k` hops it is never less certain than 0.85 to the `k`.
   */
  lemma CertainExactlyForCatalogPaths(inputs: seq<Input>, dir: Direction, impact: Impact, ids: seq<string>, k: nat, j: nat)
    requires j < |Collect(Build(inputs), dir, impact, ids, k)|
    ensures var via := Collect(Build(inputs), dir, impact, ids, k)[j].via;
            && (PathProduct(via) == 1.0 <==> forall e :: e in via ==> e.source == Provenance.DatabaseMetadata)
            && Power(0.85, k) <= PathProduct(via) <= 1.0
  {
    hide Build;
    var g := Build(inputs);
    var r := Collect(g, dir, impact, ids, k)[j];
    BuildIsSound(inputs);
    CollectIsJustified(g, dir, impact, ids, k, j);
    var i :| 0 <= i < |ids| && IsWalk(g.edges, dir, ids[i], r.resource.id, r.via);
    WalkEdges(g.edges, dir, ids[i], r.resource.id, r.via);
    assert forall e :: e in r.via ==> Graded(e);
    PathProductWithin(r.via, 0.85);
    PathIsCertain(r.via);
    PowerFalls(0.85, |r.via|, k);
  }

  /** Within the four hops of the default bound no path, and so no list, is reported less certain than 0.522. */
  lemma FourHopConfidence(inputs: seq<Input>, dir: Direction, impact: Impact, ids: seq<string>, k: nat)
    requires k <= 4
    ensures var list := Collect(Build(inputs), dir, impact, ids, k);
            && (forall r :: r in list ==> 0.522 <= PathConfidence(r.via) <= 1.0)
            && 0.522 <= EstimateConfidence(list) <= 1.0
  {
    assert Power(0.85, 4) == 0.52200625 by {
      assert Power(0.85, 2) == 0.7225 && Power(0.85, 3) == 0.614125;
    }
    assert Round4(0.52200625) == 0.522;
    hide Build, Collect, EstimateConfidence, Round4, Power;
    var list := Collect(Build(inputs), dir, impact, ids, k);
    PowerFalls(0.85, k, 4);
    RoundInteger(1);
    forall r | r in list ensures 5220 as real / 10000.0 <= PathConfidence(r.via) <= 1.0 {
      var j :| 0 <= j < |list| && list[j] == r;
      CertainExactlyForCatalogPaths(inputs, dir, impact, ids, k, j);
      Round4Monotone(0.52200625, PathProduct(r.via));
      Round4Monotone(PathProduct(r.via), 1.0);
    }
    EstimateConfidenceWithin(list, 5220);
  }
}
