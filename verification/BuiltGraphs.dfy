/** The nodes and edges of a built graph, written out: their ids, kinds, names and what they join. */
module BuiltGraphs {
  import opened Prelude
  import opened Dependencies
  import opened BlastRadii
  import opened GraphBuilding

  // ---------------------------------------------------------------------------
  // References of three parts
  // ---------------------------------------------------------------------------

  predicate PartsOf(ref: string, a: string, b: string, c: string) {
    '.' !in a && '.' !in b && '.' !in c && ref == a + "." + b + "." + c
  }

  /** Text, dot, text, dot, text. */
  ghost predicate ThreeParts(ref: string) {
    exists a, b, c :: PartsOf(ref, a, b, c)
  }

  lemma {:induction false} PartsHaveNoSeparator(text: string, sep: char)
    ensures forall p :: p in Split(text, sep) ==> sep !in p
  {
    if text != "" {
      PartsHaveNoSeparator(text[1..], sep);
      assert Split(text[1..], sep)[0] in Split(text[1..], sep);
    }
  }

  lemma JoinThree(parts: seq<string>)
    requires |parts| == 3
    ensures Join(parts, '.') == parts[0] + "." + parts[1] + "." + parts[2]
  {
    assert Join(parts[1..], '.') == parts[1] + ['.'] + Join(parts[2..], '.');
    assert ['.'] == ".";
    assert parts[0] + ['.'] + (parts[1] + ['.'] + parts[2]) == parts[0] + "." + parts[1] + "." + parts[2];
  }

  /** A reference is read exactly when it has three parts, and the node it stands for is named after it. */
  lemma RefIsThreeParts(ref: string)
    ensures ParseRef(ref).Some? <==> ThreeParts(ref)
    ensures ParseRef(ref).Some? ==>
              ParseRef(ref).value.NodeId() == "table:" + ref && ParseRef(ref).value.Qualified() == ref
  {
    hide Split, Join;
    var parts := Split(ref, '.');
    if |parts| == 3 {
      JoinInvertsSplit(ref, '.');
      JoinThree(parts);
      PartsHaveNoSeparator(ref, '.');
      assert PartsOf(ref, parts[0], parts[1], parts[2]);
    }
    if a, b, c :| PartsOf(ref, a, b, c) {
      assert ref == a + ['.'] + (b + ['.'] + c);
      SplitPrefix(a, b + ['.'] + c, '.');
      SplitPrefix(b, c, '.');
      SplitWithout(c, '.');
    }
  }

  // ---------------------------------------------------------------------------
  // The nodes a catalog adds
  // ---------------------------------------------------------------------------

  function Count(n: Option<int>): Value {
    match n
    case None => Null
    case Some(c) => Num(c as real)
  }

  /** `n` stands for a table of this schema. */
  ghost predicate StandsForTable(n: Node, db: string, schema: string, t: CatalogTable) {
    && n.id == "table:" + db + "." + schema + "." + t.name
    && n.resourceType == ResourceType.Table
    && n.name == schema + "." + t.name
    && n.metadata == map["database" := Str(db), "row_estimate" := Count(t.rowEstimate),
                         "table_size_bytes" := Count(t.sizeBytes)]
  }

  ghost predicate StandsForView(n: Node, db: string, schema: string, v: CatalogView) {
    && n.id == "view:" + db + "." + schema + "." + v.name
    && n.resourceType == ResourceType.View
    && n.name == schema + "." + v.name
    && n.metadata == map["database" := Str(db), "is_materialized" := Bool(v.isMaterialized)]
  }

  ghost predicate FromSchema(n: Node, db: string, s: CatalogSchema) {
    || (exists t :: t in s.tables && StandsForTable(n, db, s.name, t))
    || (exists v :: v in s.views && StandsForView(n, db, s.name, v))
  }

  ghost predicate FromCatalog(n: Node, db: string, schemas: seq<CatalogSchema>) {
    || n == Node("database:" + db, ResourceType.Database, db, map[])
    || exists s :: s in schemas && FromSchema(n, db, s)
  }

  lemma {:induction false} NewTables(g: Network, db: string, schema: string, tables: seq<CatalogTable>, id: string)
    ensures var r := PutTables(g, db, schema, tables);
            id in r.nodes && id !in g.nodes ==> exists t :: t in tables && StandsForTable(r.nodes[id], db, schema, t)
    decreases |tables|
  {
    if tables != [] {
      var more := PutNode(g, TableNode(db, schema, tables[0]));
      NewTables(more, db, schema, tables[1..], id);
      assert StandsForTable(TableNode(db, schema, tables[0]), db, schema, tables[0]);
      assert forall t :: t in tables[1..] ==> t in tables;
    }
  }

  lemma {:induction false} NewViews(g: Network, db: string, schema: string, views: seq<CatalogView>, id: string)
    ensures var r := PutViews(g, db, schema, views);
            id in r.nodes && id !in g.nodes ==> exists v :: v in views && StandsForView(r.nodes[id], db, schema, v)
    decreases |views|
  {
    if views != [] {
      var more := PutNode(g, ViewNode(db, schema, views[0]));
      NewViews(more, db, schema, views[1..], id);
      assert StandsForView(ViewNode(db, schema, views[0]), db, schema, views[0]);
      assert forall v :: v in views[1..] ==> v in views;
    }
  }

  lemma NewInSchema(g: Network, db: string, s: CatalogSchema, id: string)
    ensures var r := PutViews(PutTables(g, db, s.name, s.tables), db, s.name, s.views);
            && (id in r.nodes && id !in g.nodes ==> FromSchema(r.nodes[id], db, s))
            && (id in g.nodes ==> id in r.nodes)
  {
    hide StandsForTable, StandsForView, PutTables, PutViews;
    NewTables(g, db, s.name, s.tables, id);
    NewViews(PutTables(g, db, s.name, s.tables), db, s.name, s.views, id);
  }

  lemma {:induction false} NewInSchemas(g: Network, db: string, schemas: seq<CatalogSchema>, id: string)
    ensures var r := PutSchemas(g, db, schemas);
            id in r.nodes && id !in g.nodes ==> exists s :: s in schemas && FromSchema(r.nodes[id], db, s)
    decreases |schemas|
  {
    hide FromSchema, PutTables, PutViews;
    if schemas != [] {
      var s := schemas[0];
      NewInSchema(g, db, s, id);
      NewInSchemas(PutViews(PutTables(g, db, s.name, s.tables), db, s.name, s.views), db, schemas[1..], id);
      assert forall x :: x in schemas[1..] ==> x in schemas;
    }
  }

  /** Every node a catalog adds stands for its database, or for a table or view it lists. */
  lemma CatalogNodes(g: Network, db: string, schemas: seq<CatalogSchema>, id: string)
    ensures var r := WithCatalog(g, db, schemas);
            && (id in g.nodes ==> id in r.nodes && r.nodes[id] == g.nodes[id])
            && (id in r.nodes && id !in g.nodes ==> FromCatalog(r.nodes[id], db, schemas))
            && "database:" + db in r.nodes
    ensures forall s, t :: s in schemas && t in s.tables ==>
              "table:" + db + "." + s.name + "." + t.name in WithCatalog(g, db, schemas).nodes
    ensures forall s, v :: s in schemas && v in s.views ==>
              "view:" + db + "." + s.name + "." + v.name in WithCatalog(g, db, schemas).nodes
  {
    hide PutSchemas, FromSchema, LinkSchemaTables, LinkSchemaViews;
    var start := PutNode(g, Node(DatabaseNodeId(db), ResourceType.Database, db, map[]));
    NewInSchemas(start, db, schemas, id);
    var nodes := PutSchemas(start, db, schemas);
    forall s, t | s in schemas && t in s.tables ensures "table:" + db + "." + s.name + "." + t.name in nodes.nodes {
      assert Present(nodes.nodes, db, s);
      assert TableNodeId(db, s.name, t.name) in nodes.nodes;
    }
    forall s, v | s in schemas && v in s.views ensures "view:" + db + "." + s.name + "." + v.name in nodes.nodes {
      assert Present(nodes.nodes, db, s);
      assert ViewNodeId(db, s.name, v.name) in nodes.nodes;
    }
  }

  lemma SameTable(db: string, a: string, b: string)
    requires "table:" + db + "." + a == "table:" + db + "." + b
    ensures a == b
  {
    var n := |"table:" + db + "."|;
    assert ("table:" + db + "." + a)[n..] == a && ("table:" + db + "." + b)[n..] == b;
  }

  lemma TableIdParts(db: string, schema: string, table: string)
    ensures "table:" + db + "." + schema + "." + table == "table:" + db + "." + (schema + "." + table)
  {
  }

  /**
   * The node a table of a catalog gets: one the graph has already stays, a new one is a table node of its name and
   * database.
   */
  lemma CatalogTableNode(g: Network, db: string, schemas: seq<CatalogSchema>, s: CatalogSchema, t: CatalogTable)
    requires s in schemas && t in s.tables
    ensures var id := "table:" + db + "." + s.name + "." + t.name;
            var r := WithCatalog(g, db, schemas);
            && id in r.nodes
            && (id in g.nodes ==> r.nodes[id] == g.nodes[id])
            && (id !in g.nodes ==>
                  && r.nodes[id].resourceType == ResourceType.Table && r.nodes[id].name == s.name + "." + t.name
                  && "database" in r.nodes[id].metadata && r.nodes[id].metadata["database"] == Str(db))
  {
    hide WithCatalog;
    var id := "table:" + db + "." + s.name + "." + t.name;
    CatalogNodes(g, db, schemas, id);
    var r := WithCatalog(g, db, schemas);
    if id !in g.nodes {
      assert id[0] == 't';
      var n := r.nodes[id];
      assert n.id == id by {
        assert Extends(g, r);
      }
      assert n != Node("database:" + db, ResourceType.Database, db, map[]);
      var s' :| s' in schemas && FromSchema(n, db, s');
      assert forall v :: v in s'.views ==> !StandsForView(n, db, s'.name, v);
      var t' :| t' in s'.tables && StandsForTable(n, db, s'.name, t');
      TableIdParts(db, s.name, t.name);
      TableIdParts(db, s'.name, t'.name);
      SameTable(db, s.name + "." + t.name, s'.name + "." + t'.name);
    }
  }

  // ---------------------------------------------------------------------------
  // The edges a catalog adds
  // ---------------------------------------------------------------------------

  ghost predicate KeyJoins(e: Dependency, db: string, schema: string, t: CatalogTable, fk: ForeignKey) {
    e == Dependency("table:" + db + "." + schema + "." + t.name,
                    "table:" + db + "." + fk.referencedSchema + "." + fk.referencedTable,
                    "foreign_key:" + fk.name, Provenance.DatabaseMetadata, 1.0, None, map[])
  }

  /** What a view reads: the table of that name if the graph has one, else the view; a name without a dot is a schema. */
  ghost function ReadId(nodes: map<string, Node>, db: string, ref: string): string {
    var full := if '.' in ref then ref else ref + ".";
    if "table:" + db + "." + full in nodes then "table:" + db + "." + full else "view:" + db + "." + full
  }

  ghost predicate ViewJoins(e: Dependency, nodes: map<string, Node>, db: string, schema: string, v: CatalogView, ref: string) {
    e == Dependency("view:" + db + "." + schema + "." + v.name, ReadId(nodes, db, ref), "reads_from",
                    Provenance.DatabaseMetadata, 1.0, None, map[])
  }

  lemma {:induction false} SplitMoreExactly(text: string, sep: char)
    ensures |Split(text, sep)| == 1 <==> sep !in text
  {
    if text != "" {
      SplitMoreExactly(text[1..], sep);
      assert text == [text[0]] + text[1..];
    }
  }

  lemma ReadIs(nodes: map<string, Node>, db: string, ref: string)
    ensures ReferencedId(nodes, db, ref) == ReadId(nodes, db, ref)
  {
    hide Split, Join;
    var (schema, name) := Partition(ref);
    SplitMoreExactly(ref, '.');
    JoinInvertsSplit(ref, '.');
    var parts := Split(ref, '.');
    if |parts| > 1 {
      JoinFirst(parts);
      assert schema + "." + name == ref;
    } else {
      assert schema + "." + name == ref + ".";
    }
    assert TableNodeId(db, schema, name) == "table:" + db + "." + (schema + "." + name);
    assert ViewNodeId(db, schema, name) == "view:" + db + "." + (schema + "." + name);
  }

  lemma JoinFirst(parts: seq<string>)
    requires |parts| > 1
    ensures Join(parts, '.') == parts[0] + "." + Join(parts[1..], '.')
  {
  }

  /**
   * The edges of a catalog: a table depends on each known table its foreign keys reference, a view on each known table
   * or view it reads; nothing else is joined.
   */
  lemma CatalogJoins(g: Network, db: string, schemas: seq<CatalogSchema>, e: Dependency)
    ensures var r := WithCatalog(g, db, schemas);
            e in r.edges <==>
              || e in g.edges
              || (e.targetId in r.nodes
                  && ((exists s, t, fk :: s in schemas && t in s.tables && fk in t.foreignKeys && KeyJoins(e, db, s.name, t, fk))
                      || (exists s, v, ref :: s in schemas && v in s.views && ref in v.referencedTables
                                              && ViewJoins(e, r.nodes, db, s.name, v, ref))))
  {
    hide WithCatalog;
    CatalogEdgesAreDeclared(g, db, schemas, e);
    var r := WithCatalog(g, db, schemas);
    forall ref ensures ReferencedId(r.nodes, db, ref) == ReadId(r.nodes, db, ref) {
      ReadIs(r.nodes, db, ref);
    }
    KeysJoin(r.nodes, db, schemas, e);
    ViewsJoin(r.nodes, db, schemas, e);
  }

  lemma KeysJoin(nodes: map<string, Node>, db: string, schemas: seq<CatalogSchema>, e: Dependency)
    ensures DeclaredKey(nodes, db, schemas, e) <==>
            e.targetId in nodes
            && exists s, t, fk :: s in schemas && t in s.tables && fk in t.foreignKeys && KeyJoins(e, db, s.name, t, fk)
  {
    if e.targetId in nodes {
      forall s, t, fk | s in schemas && t in s.tables && fk in t.foreignKeys && KeyJoins(e, db, s.name, t, fk)
        ensures DeclaredKey(nodes, db, schemas, e)
      {
        assert e == ForeignKeyEdge(db, TableNodeId(db, s.name, t.name), fk);
        assert KeyOf(nodes, db, TableNodeId(db, s.name, t.name), t.foreignKeys, e);
        assert KeyOfTable(nodes, db, s.name, s.tables, e);
      }
    }
    if DeclaredKey(nodes, db, schemas, e) {
      var s :| s in schemas && KeyOfTable(nodes, db, s.name, s.tables, e);
      var t :| t in s.tables && KeyOf(nodes, db, TableNodeId(db, s.name, t.name), t.foreignKeys, e);
      var fk :| fk in t.foreignKeys && e == ForeignKeyEdge(db, TableNodeId(db, s.name, t.name), fk);
      assert KeyJoins(e, db, s.name, t, fk);
    }
  }

  lemma ViewsJoin(nodes: map<string, Node>, db: string, schemas: seq<CatalogSchema>, e: Dependency)
    requires forall ref :: ReferencedId(nodes, db, ref) == ReadId(nodes, db, ref)
    ensures DeclaredRef(nodes, db, schemas, e) <==>
            e.targetId in nodes
            && exists s, v, ref :: s in schemas && v in s.views && ref in v.referencedTables
                                   && ViewJoins(e, nodes, db, s.name, v, ref)
  {
    hide ReferencedId, ReadId;
    if e.targetId in nodes {
      forall s, v, ref | s in schemas && v in s.views && ref in v.referencedTables && ViewJoins(e, nodes, db, s.name, v, ref)
        ensures DeclaredRef(nodes, db, schemas, e)
      {
        assert e == ViewEdge(nodes, db, ViewNodeId(db, s.name, v.name), ref);
        assert RefOf(nodes, db, ViewNodeId(db, s.name, v.name), v.referencedTables, e);
        assert RefOfView(nodes, db, s.name, s.views, e);
      }
    }
    if DeclaredRef(nodes, db, schemas, e) {
      var s :| s in schemas && RefOfView(nodes, db, s.name, s.views, e);
      var v :| v in s.views && RefOf(nodes, db, ViewNodeId(db, s.name, v.name), v.referencedTables, e);
      var ref :| ref in v.referencedTables && e == ViewEdge(nodes, db, ViewNodeId(db, s.name, v.name), ref);
      assert ViewJoins(e, nodes, db, s.name, v, ref);
    }
  }

  // ---------------------------------------------------------------------------
  // The nodes a configuration adds
  // ---------------------------------------------------------------------------

  ghost predicate StandsForDatabase(n: Node, d: DatabaseEntry) {
    n == Node("database:" + d.name, ResourceType.Database, d.name,
              map["production" := Bool(d.production), "critical" := Bool(d.critical)])
  }

  /** Services of the kind `data_pipeline` are pipelines. */
  ghost predicate StandsForService(n: Node, s: ServiceEntry) {
    && n.name == s.name
    && (s.kind == "data_pipeline" ==> n.id == "pipeline:" + s.name && n.resourceType == ResourceType.DataPipeline)
    && (s.kind != "data_pipeline" ==> n.id == "service:" + s.name && n.resourceType == ResourceType.Service)
    && n.metadata == map["production" := Bool(s.production), "critical" := Bool(s.critical),
                         "owner" := (match s.owner case None => Null case Some(o) => Str(o)), "type" := Str(s.kind)]
  }

  ghost predicate StandsForRef(n: Node, ref: string) {
    n == Node("table:" + ref, ResourceType.Table, ref, map[])
  }

  ghost predicate StandsForReplica(n: Node, e: ReplicationEntry) {
    && n.id == "table:" + e.target && n.resourceType == ResourceType.ReplicationTarget && n.name == e.target
    && n.metadata == map["mechanism" := Str(e.mechanism),
                         "pipeline_name" := (match e.pipelineName case None => Null case Some(p) => Str(p))]
  }

  ghost predicate StandsForApi(n: Node, a: ApiEntry) {
    n == Node("api:" + a.name, ResourceType.ApiEndpoint, a.name, map[])
  }

  ghost predicate FromRefs(n: Node, refs: seq<string>) {
    exists ref :: ref in refs && StandsForRef(n, ref)
  }

  ghost predicate FromService(n: Node, s: ServiceEntry) {
    StandsForService(n, s) || FromRefs(n, s.readsFrom + s.writesTo)
  }

  ghost predicate FromReplication(n: Node, e: ReplicationEntry) {
    StandsForRef(n, e.source) || StandsForReplica(n, e)
  }

  ghost predicate FromApi(n: Node, a: ApiEntry) {
    StandsForApi(n, a) || FromRefs(n, a.tables)
  }

  ghost predicate FromConfig(n: Node, c: AppConfig) {
    || (exists d :: d in c.databases && StandsForDatabase(n, d))
    || (exists s :: s in c.services && FromService(n, s))
    || (exists e :: e in c.replication && FromReplication(n, e))
    || (exists a :: a in c.apis && FromApi(n, a))
  }

  lemma {:induction false} NewDatabases(g: Network, dbs: seq<DatabaseEntry>, id: string)
    ensures var r := PutDatabases(g, dbs);
            id in r.nodes && id !in g.nodes ==> exists d :: d in dbs && StandsForDatabase(r.nodes[id], d)
    decreases |dbs|
  {
    if dbs != [] {
      var d := dbs[0];
      var n := Node(DatabaseNodeId(d.name), ResourceType.Database, d.name,
                    map["production" := Bool(d.production), "critical" := Bool(d.critical)]);
      NewDatabases(PutNode(g, n), dbs[1..], id);
      assert StandsForDatabase(n, d) && d in dbs;
      assert forall x :: x in dbs[1..] ==> x in dbs;
    }
  }

  lemma {:induction false} NewRefs(g: Network, dependent: string, refs: seq<string>, id: string)
    requires dependent in g.nodes
    ensures var r := LinkRefs(g, dependent, refs).graph;
            id in r.nodes && id !in g.nodes ==> FromRefs(r.nodes[id], refs)
    decreases |refs|
  {
    hide ParseRef;
    if refs != [] && ParseRef(refs[0]).Some? {
      RefIsThreeParts(refs[0]);
      NewRefs(EnsureTableEdge(g, dependent, ParseRef(refs[0]).value), dependent, refs[1..], id);
      assert forall x :: x in refs[1..] ==> x in refs;
      assert refs[0] in refs;
    }
  }

  lemma ServiceNodeStands(s: ServiceEntry)
    ensures StandsForService(ServiceNode(s), s)
  {
  }

  lemma {:induction false} NewServices(g: Network, services: seq<ServiceEntry>, id: string)
    ensures var r := PutServices(g, services).graph;
            id in r.nodes && id !in g.nodes ==> exists s :: s in services && FromService(r.nodes[id], s)
    decreases |services|
  {
    hide LinkRefs, ServiceNode, StandsForService, FromRefs;
    if services != [] {
      var s := services[0];
      var node, refs := PutNode(g, ServiceNode(s)), s.readsFrom + s.writesTo;
      ServiceNodeStands(s);
      NewRefs(node, ServiceNode(s).id, refs, id);
      NewServices(LinkRefs(node, ServiceNode(s).id, refs).graph, services[1..], id);
      assert forall x :: x in services[1..] ==> x in services;
      assert s in services;
    }
  }

  lemma {:induction false} NewReplicas(g: Network, entries: seq<ReplicationEntry>, id: string)
    ensures var r := PutReplication(g, entries).graph;
            id in r.nodes && id !in g.nodes ==> exists e :: e in entries && FromReplication(r.nodes[id], e)
    decreases |entries|
  {
    hide ParseRef;
    if entries != [] && ParseRef(entries[0].source).Some? && ParseRef(entries[0].target).Some? {
      var e := entries[0];
      RefIsThreeParts(e.source);
      RefIsThreeParts(e.target);
      NewReplicas(Replicate(g, e, ParseRef(e.source).value, ParseRef(e.target).value), entries[1..], id);
      assert forall x :: x in entries[1..] ==> x in entries;
      assert e in entries;
    }
  }

  lemma {:induction false} NewApis(g: Network, apis: seq<ApiEntry>, id: string)
    ensures var r := PutApis(g, apis).graph;
            id in r.nodes && id !in g.nodes ==> exists a :: a in apis && FromApi(r.nodes[id], a)
    decreases |apis|
  {
    hide LinkRefs, FromRefs;
    if apis != [] {
      var a := apis[0];
      NewRefs(PutApi(g, a), ApiNodeId(a.name), a.tables, id);
      NewApis(LinkRefs(PutApi(g, a), ApiNodeId(a.name), a.tables).graph, apis[1..], id);
      assert forall x :: x in apis[1..] ==> x in apis;
      assert a in apis;
    }
  }

  /** Every node a configuration adds, refused or not, stands for something it names. */
  lemma ConfigNodes(g: Network, c: AppConfig, id: string)
    ensures var r := WithConfig(g, c).graph;
            && (id in g.nodes ==> id in r.nodes && r.nodes[id] == g.nodes[id])
            && (id in r.nodes && id !in g.nodes ==> FromConfig(r.nodes[id], c))
  {
    hide PutDatabases, PutServices, PutReplication, PutApis;
    hide StandsForDatabase, FromService, FromReplication, FromApi;
    var databases := PutDatabases(g, c.databases);
    NewDatabases(g, c.databases, id);
    var services := PutServices(databases, c.services);
    NewServices(databases, c.services, id);
    var replication := PutReplication(services.graph, c.replication);
    NewReplicas(services.graph, c.replication, id);
    NewApis(replication.graph, c.apis, id);
  }

  // ---------------------------------------------------------------------------
  // The edges a configuration adds
  // ---------------------------------------------------------------------------

  ghost predicate Configured(e: Dependency, from: string, to: string, relationship: string, confidence: real) {
    e == Dependency(from, to, relationship, Provenance.Configuration, confidence, None, map[])
  }

  ghost predicate UsesTable(e: Dependency, from: string, refs: seq<string>) {
    exists ref :: ref in refs && ThreeParts(ref) && Configured(e, from, "table:" + ref, "reads_or_writes", 0.85)
  }

  ghost function ServiceId(s: ServiceEntry): string {
    if s.kind == "data_pipeline" then "pipeline:" + s.name else "service:" + s.name
  }

  ghost predicate ReplicaJoins(e: Dependency, r: ReplicationEntry) {
    e == Dependency("table:" + r.target, "table:" + r.source, "replication:" + r.mechanism, Provenance.Configuration, 0.9,
                    None, map["pipeline_name" := (match r.pipelineName case None => Null case Some(p) => Str(p))])
  }

  /** Nothing in it has other than three parts. */
  ghost predicate WellSpelled(c: AppConfig) {
    && (forall s, ref :: s in c.services && ref in s.readsFrom + s.writesTo ==> ThreeParts(ref))
    && (forall e :: e in c.replication ==> ThreeParts(e.source) && ThreeParts(e.target))
    && (forall a, ref :: a in c.apis && ref in a.tables ==> ThreeParts(ref))
  }

  lemma RefsWellSpelled(refs: seq<string>)
    ensures Malformed(refs) <==> exists ref :: ref in refs && !ThreeParts(ref)
  {
    hide ParseRef;
    forall ref ensures ParseRef(ref).Some? <==> ThreeParts(ref) {
      RefIsThreeParts(ref);
    }
  }

  /** A configuration is accepted exactly when it is well spelled. */
  lemma AcceptedExactly(g: Network, c: AppConfig)
    ensures WithConfig(g, c).refused.None? <==> WellSpelled(c)
  {
    hide WithConfig, Malformed, ThreeParts, ParseRef;
    ConfigIsRefused(g, c);
    forall refs ensures Malformed(refs) <==> exists ref :: ref in refs && !ThreeParts(ref) {
      RefsWellSpelled(refs);
    }
    forall e: ReplicationEntry ensures BadReplica(e) <==> !ThreeParts(e.source) || !ThreeParts(e.target) {
      RefIsThreeParts(e.source);
      RefIsThreeParts(e.target);
    }
  }

  lemma UsesTableIs(from: string, refs: seq<string>, e: Dependency)
    ensures UsedTable(from, refs, e) <==> UsesTable(e, from, refs)
  {
    hide ParseRef, ThreeParts;
    forall ref ensures TableUse(from, ref, e) <==>
                       ThreeParts(ref) && Configured(e, from, "table:" + ref, "reads_or_writes", 0.85)
    {
      RefIsThreeParts(ref);
    }
  }

  lemma ReplicaJoinsIs(r: ReplicationEntry, e: Dependency)
    requires ThreeParts(r.source) && ThreeParts(r.target)
    ensures ReplicaOf(r, e) <==> ReplicaJoins(e, r)
  {
    hide ParseRef, ThreeParts;
    RefIsThreeParts(r.source);
    RefIsThreeParts(r.target);
  }

  /**
   * The edges of an accepted configuration: services, pipelines and endpoints depend on the tables they name, a replica
   * on its source, and an endpoint on the service behind it if the graph has that service; nothing else is joined.
   */
  lemma ConfigJoins(g: Network, c: AppConfig, e: Dependency)
    requires WellSpelled(c)
    ensures var r := WithConfig(g, c).graph;
            e in r.edges <==>
              || e in g.edges
              || (exists s :: s in c.services && UsesTable(e, ServiceId(s), s.readsFrom + s.writesTo))
              || (exists p :: p in c.replication && ReplicaJoins(e, p))
              || (exists a :: a in c.apis && UsesTable(e, "api:" + a.name, a.tables))
              || (exists a :: a in c.apis && "service:" + a.service in r.nodes
                              && Configured(e, "api:" + a.name, "service:" + a.service, "served_by", 0.95))
  {
    hide WithConfig, UsedTable, UsesTable, ReplicaOf, ReplicaJoins, ThreeParts;
    AcceptedExactly(g, c);
    ConfigEdgesAreDeclared(g, c, e);
    var r := WithConfig(g, c).graph;
    forall s: ServiceEntry ensures UsedTable(ServiceNode(s).id, s.readsFrom + s.writesTo, e)
                                   <==> UsesTable(e, ServiceId(s), s.readsFrom + s.writesTo)
    {
      UsesTableIs(ServiceId(s), s.readsFrom + s.writesTo, e);
    }
    forall p | p in c.replication ensures ReplicaOf(p, e) <==> ReplicaJoins(e, p) {
      ReplicaJoinsIs(p, e);
    }
    forall a: ApiEntry
      ensures ApiHas(r.nodes, a, e) <==>
              || UsesTable(e, "api:" + a.name, a.tables)
              || ("service:" + a.service in r.nodes
                  && Configured(e, "api:" + a.name, "service:" + a.service, "served_by", 0.95))
    {
      UsesTableIs("api:" + a.name, a.tables, e);
    }
  }

  lemma {:induction false} DatabasesThere(g: Network, dbs: seq<DatabaseEntry>, d: DatabaseEntry)
    requires d in dbs
    ensures "database:" + d.name in PutDatabases(g, dbs).nodes
    decreases |dbs|
  {
    var first := dbs[0];
    var more := PutNode(g, Node(DatabaseNodeId(first.name), ResourceType.Database, first.name,
                                map["production" := Bool(first.production), "critical" := Bool(first.critical)]));
    if d != first {
      DatabasesThere(more, dbs[1..], d);
    }
  }

  lemma {:induction false} ServicesThere(g: Network, services: seq<ServiceEntry>, s: ServiceEntry)
    requires s in services && PutServices(g, services).refused.None?
    ensures ServiceId(s) in PutServices(g, services).graph.nodes
    decreases |services|
  {
    hide LinkRefs;
    var first := services[0];
    if s != first {
      var node := PutNode(g, ServiceNode(first));
      ServicesThere(LinkRefs(node, ServiceNode(first).id, first.readsFrom + first.writesTo).graph, services[1..], s);
    }
  }

  lemma {:induction false} ApisThere(g: Network, apis: seq<ApiEntry>, a: ApiEntry)
    requires a in apis && PutApis(g, apis).refused.None?
    ensures "api:" + a.name in PutApis(g, apis).graph.nodes
    decreases |apis|
  {
    hide LinkRefs;
    var first := apis[0];
    if a != first {
      ApisThere(LinkRefs(PutApi(g, first), ApiNodeId(first.name), first.tables).graph, apis[1..], a);
    }
  }

  /** After an accepted configuration everything it names has a node. */
  lemma ConfiguredNodes(g: Network, c: AppConfig)
    requires WellSpelled(c)
    ensures var nodes := WithConfig(g, c).graph.nodes;
            && (forall d :: d in c.databases ==> "database:" + d.name in nodes)
            && (forall s :: s in c.services ==> ServiceId(s) in nodes)
            && (forall a :: a in c.apis ==> "api:" + a.name in nodes)
  {
    hide PutDatabases, PutServices, PutReplication, PutApis, WellSpelled, ServiceId;
    AcceptedExactly(g, c);
    var databases := PutDatabases(g, c.databases);
    var services := PutServices(databases, c.services).graph;
    var replication := PutReplication(services, c.replication).graph;
    forall d | d in c.databases ensures "database:" + d.name in databases.nodes {
      DatabasesThere(g, c.databases, d);
    }
    forall s | s in c.services ensures ServiceId(s) in services.nodes {
      ServicesThere(databases, c.services, s);
    }
    forall a | a in c.apis ensures "api:" + a.name in PutApis(replication, c.apis).graph.nodes {
      ApisThere(replication, c.apis, a);
    }
  }

  // ---------------------------------------------------------------------------
  // Whole runs
  // ---------------------------------------------------------------------------

  lemma {:induction false} BuildKeeps(inputs: seq<Input>, i: nat)
    requires i <= |inputs|
    ensures Extends(Build(inputs[..i]), Build(inputs))
    decreases |inputs|
  {
    hide WithCatalog, WithConfig;
    if i == |inputs| {
      assert inputs[..i] == inputs;
    } else {
      var n := |inputs| - 1;
      assert inputs[..n][..i] == inputs[..i];
      BuildKeeps(inputs[..n], i);
      ExtendsTransitive(Build(inputs[..i]), Build(inputs[..n]), Build(inputs));
    }
  }

  /**
   * A table that a catalog of the run lists has a node. It is a table node of that name and database if nothing before
   * that catalog was known under its id, and otherwise the node known before.
   */
  lemma ListedTableNode(inputs: seq<Input>, i: nat, s: CatalogSchema, t: CatalogTable)
    requires i < |inputs| && inputs[i].Catalog? && s in inputs[i].schemas && t in s.tables
    ensures var id := "table:" + inputs[i].db + "." + s.name + "." + t.name;
            var earlier, nodes := Build(inputs[..i]).nodes, Build(inputs).nodes;
            && id in nodes && nodes[id].id == id
            && (id in earlier ==> nodes[id] == earlier[id])
            && (id !in earlier ==>
                  && nodes[id].resourceType == ResourceType.Table && nodes[id].name == s.name + "." + t.name
                  && "database" in nodes[id].metadata && nodes[id].metadata["database"] == Str(inputs[i].db))
  {
    hide WithCatalog;
    BuildKeeps(inputs, i + 1);
    BuildIsSound(inputs);
    assert inputs[..i + 1][..i] == inputs[..i];
    CatalogTableNode(Build(inputs[..i]), inputs[i].db, inputs[i].schemas, s, t);
  }

  /** The edge of a foreign key to a table a catalog of the run knows is in the graph. */
  lemma ListedKeyEdge(inputs: seq<Input>, i: nat, s: CatalogSchema, t: CatalogTable, fk: ForeignKey) returns (e: Dependency)
    requires i < |inputs| && inputs[i].Catalog? && s in inputs[i].schemas && t in s.tables && fk in t.foreignKeys
    requires exists s', t' :: s' in inputs[i].schemas && t' in s'.tables
               && s'.name == fk.referencedSchema && t'.name == fk.referencedTable
    ensures e in Build(inputs).edges && KeyJoins(e, inputs[i].db, s.name, t, fk)
  {
    hide WithCatalog;
    var db, schemas, g := inputs[i].db, inputs[i].schemas, Build(inputs[..i]);
    var s', t' :| s' in schemas && t' in s'.tables && s'.name == fk.referencedSchema && t'.name == fk.referencedTable;
    CatalogTableNode(g, db, schemas, s', t');
    e := Dependency("table:" + db + "." + s.name + "." + t.name,
                    "table:" + db + "." + fk.referencedSchema + "." + fk.referencedTable,
                    "foreign_key:" + fk.name, Provenance.DatabaseMetadata, 1.0, None, map[]);
    CatalogJoins(g, db, schemas, e);
    assert KeyJoins(e, db, s.name, t, fk);
    assert inputs[..i + 1][..i] == inputs[..i];
    BuildKeeps(inputs, i + 1);
  }
}
