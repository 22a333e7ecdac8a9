# Verified model of the database change risk engine and platform safety machinery

This project models, in Dafny, the parts of the repository whose results people act on, and proves what those parts
guarantee for all inputs. It verifies as a whole with `dafny verify dfyconfig.toml`.

## What is modelled

* **Dependency graph and blast radius** (`Graph`, `DependencyGraph`, `BlastRadius`, `ImpactLists`, `GraphBuilder`,
  `BuiltGraphs`). A mutable graph with two adjacency indexes, its bounded breadth-first traversal, the fold over many
  changed resources, and the builder that fills the graph from catalog metadata and application configuration. The
  reference definition is the walk: a connected chain of edges. The traversal is exact with respect to shortest walks,
  dual in its two directions, and terminates; the fold reports the distance from the first source that reaches a
  resource. Nodes, edges and lists are also written out in the terms of the inputs.
* **Risk scoring** (`Changes`, `RiskFactors`, `FactorCauses`, `RiskGrowth`, `RiskEngine`, `RiskPolicy`,
  `RuleConditions`, `RuleOutcomes`, `Pipeline`, `ChangeImpact`). Thirteen banded factors and what causes each score, the
  weighted and rounded sum, the level, the confidence and its notes, the rule loop that only escalates, the conditions
  of the rules and what the default rules decide, and the run that ties them together, from operations to the nodes they
  hit. The main theorem is end to end: over all accepted weight policies, appending operations to a change never lowers
  its score if and only if the append does not replace a cautious default (40 for an empty change, 20 for unknown size
  or volume) by a lower measured score.
* **Audit log and provisioning gate** (`AuditLog`, `ProvisionGate`). The hash chain over an arbitrary digest function:
  nothing is assumed of the digest, so each guarantee reads "or here is a collision or a genesis preimage among these
  very payloads". The gate writes exactly one event per call and runs the provisioning hook only when both reviews pass.
  The engine's own copy of the audit logger (`src/change_risk_engine/audit.py`) is the same code and the same model.
* **SQL splitting** (`SqlSplitting`). The quote-and-parenthesis scanner and the reader of table references, as
  inverses of joining and printing.
* **Capacity forecasting** (`Forecasting`). Least squares over real numbers for histories of any length.
* **Bootstrap retry** (`Bootstrap`). Statements retried over a tunnel that may drop after any applied prefix.
* **Disaster recovery drill** (`DrDrill`). Backup, checksum, restore into a throwaway database, queries and the
  `finally` cleanup, against a world in which any command may fail with or without taking effect.
* **Field paths and overrides** (`FieldPaths`, `FieldOverrides`, `OverrideSharing`, `SharedDocuments`). Dotted paths on
  documents, first on values, then on mapping objects updated in place through references, which may be shared in any
  way; and when that sharing shows.
* **Stored documents** (`EnumNames`, `Serialization`, `AssessmentRecords`, `AssessmentStore`). Round trips and the
  early-exit listing.

Objects the program updates in place are classes here, its loops are loops, and each such method is proved against a
function whose properties the lemmas state. Subprocesses, clocks and the network are parameters that may take any value.

## Where the code and its documentation differ

The model follows the code.

* `_top_level_split` says it respects `$$` bodies; it does not track them (`DollarBodyIsCut`; `KeptWholeExactly` says
  which texts are kept whole). Nor is a quoted schema followed by a plain name understood, nor a leading quoted
  identifier that is a lone dot (`RefRoundTrip` gives the exact condition).
* `_resilient` calls the existence-checked `CREATE DATABASE` idempotent. If the tunnel drops after it was applied, the
  retry fails because the database exists, and the caller is told creation failed (`DroppedCreateLooksFailed`,
  `CreateReportIsExact`).
* Provisioning again over existing roles writes credentials that do not open the database, since roles are only
  created when absent (`ProvisionedAgain`, `CredentialsMatchOnlyNewRoles`).
* "Always clean up the throwaway database" holds once its creation is reported a success and the drop takes effect. A
  creation that times out or is reported failed after taking effect leaves it behind (`LeavesBehindExactly`,
  `TimedOutCreationStays`, `TimedOutDropStays`).
* `apply_field_overrides` promises a copy, but stores the override values themselves: an override that goes through the
  path of an earlier one writes the mapping the caller gave (`StoredValueIsWritten`). `CallerIsWrittenExactly` says
  exactly when that happens; with aliases in the document paths alone do not tell (`AliasesMeet`).
* Weights put on factors without a calculator count towards the required sum of 1 but add nothing to a score
  (`UncomputedWeightIsIgnored`, `UncomputedAddsNothing`).
* An overall score is meant as a weighted sum with weights that add up to 1; rounding can lift it a hundredth above the
  largest factor score (`RoundingCanExceed`). With weights of at most four decimals, like the default ones, it cannot
  (`OverallWithinWhole`).
* A comment in the default policy reads critical as 75 and above; a score between 74 and 75 is critical too
  (`ShippedLevels`).
* More operations can look safer: under the default weights one CREATE FUNCTION added to an empty change lowers its
  score (`CreateFunctionLowers`). `AppendNeverLowersScore` has the exact condition.
* `list_assessments` with a limit of 0 returns one record (`LimitKeptExactly`).
* Node ids join database, schema and table by dots, so names with dots in them can meet (`DottedNamesMeet`). A table that
  a configuration named before its catalog was read keeps the configuration's node, which has no database
  (`ConfiguredFirst`).
* The listed hop count of a resource reached from several changed tables is the distance from the first of them, not
  the smallest (`CollectIsExact`, `FirstSourceCounts`).

## Model

| member | source | states |
|---|---|---|
| `Dependencies.DiscoverIsExact` | src/change_risk_engine/domain/dependency.py:139-162 | for all edges, directions, starts and bounds: an id is reported at `h` hops exactly when `h` is within the bound and is the length of the shortest non-empty walk to it; so the start itself is reported exactly when it lies on a short enough cycle |
| `Dependencies.DiscoverIsSound` | src/change_risk_engine/domain/dependency.py:139-162 | no id is reported twice, hop counts never decrease along the answer, and every recorded path is a connected chain of graph edges from the start to the id, as long as its hop count |
| `Dependencies.WalkIsReported` | src/change_risk_engine/domain/dependency.py:147-157 | once the frontier is exhausted every walk within the bound has its end reported at no more hops than the walk has |
| `Dependencies.ReportedIsShortest` | src/change_risk_engine/domain/dependency.py:153-157 | no walk is shorter than the hop count reported for its end |
| `Dependencies.HitsBounded` | src/change_risk_engine/domain/dependency.py:146-157 | the frontier loop terminates: at most one entry per distinct edge end is ever queued |
| `Dependencies.Duality` | src/change_risk_engine/domain/dependency.py:125-137 | x is downstream of y at h hops within k exactly when y is upstream of x at h hops within k |
| `DependencyGraphs.DependencyGraph.AddNode` | src/change_risk_engine/domain/dependency.py:94-96 | the first node stored under an id stays; edges and both indexes are untouched |
| `DependencyGraphs.DependencyGraph.AddEdge` | src/change_risk_engine/domain/dependency.py:98-106 | refused, with nothing changed, exactly when an endpoint is unknown; else appended, and both adjacency indexes stay the order-preserving filters of the edge list |
| `DependencyGraphs.IndexAppend` | src/change_risk_engine/domain/dependency.py:104-106 | appending to the entry of one key keeps an index equal to the order-preserving filter of the edge list for every key |
| `DependencyGraphs.DependencyGraph.DownstreamOf` | src/change_risk_engine/domain/dependency.py:125-131 | the answer is the exact traversal along incoming edges |
| `DependencyGraphs.DependencyGraph.UpstreamOf` | src/change_risk_engine/domain/dependency.py:133-137 | the answer is the exact traversal along outgoing edges |
| `DependencyGraphs.DependencyGraph.Traverse` | src/change_risk_engine/domain/dependency.py:139-162 | the queue loop over a frontier and an insertion-ordered dictionary returns the specified discovery, entry by entry |
| `DependencyGraphs.DependencyGraph.VisitEdges` | src/change_risk_engine/domain/dependency.py:151-157 | the inner loop over one entry's edges appends exactly the newly discovered ends to dictionary and frontier |
| `DependencyGraphs.SeenWithin` | src/change_risk_engine/domain/dependency.py:154-155 | a recorded id is never further than the current layer, so the branch that would improve a recorded path never fires |
| `DependencyGraphs.DependencyGraph.CollectVisited` | src/change_risk_engine/domain/dependency.py:158-162 | the answer lists the dictionary in insertion order, dropping ids that are not nodes |
| `DependencyGraphs.ReachIsSound` | src/change_risk_engine/domain/dependency.py:158-162 | on a well-formed graph every answer is a node of the graph, once, with a walk of the stated length to it |
| `DependencyGraphs.ReachIsExact` | src/change_risk_engine/domain/dependency.py:139-162 | on a well-formed graph a node is answered at h hops exactly when h is its distance and within the bound |
| `BlastRadii.CollectIsUnion` | src/change_risk_engine/blast_radius/analyzer.py:57-98 | the listed ids are exactly the union, over the ids that are nodes, of what each reaches within the bound, itself excluded |
| `BlastRadii.CollectIsExact` | src/change_risk_engine/blast_radius/analyzer.py:71-84 | an id is listed at h hops exactly when h is its distance from the first source in list order that reaches it (not the minimum over the sources) |
| `BlastRadii.FirstSourceCounts` | src/change_risk_engine/blast_radius/analyzer.py:71-84 | a concrete graph in which a resource one hop from the second of two changed tables is listed at two hops |
| `BlastRadii.CollectExtends` | src/change_risk_engine/blast_radius/analyzer.py:57-98 | the list never repeats an id, and the list for a prefix of the sources is a prefix of the list for all of them |
| `BlastRadii.CollectIsJustified` | src/change_risk_engine/blast_radius/analyzer.py:75-84 | every entry describes a node of the graph and carries a walk to it, of its hop count, from the first source that reaches it |
| `BlastRadii.BlastGrows` | src/change_risk_engine/blast_radius/analyzer.py:50-135 | changing more resources never shrinks any list or rollup of the blast radius |
| `BlastRadii.BlastRadiusAnalyzer.Analyze` | src/change_risk_engine/blast_radius/analyzer.py:50-135 | the nested loops with their seen-sets compute the specified blast radius of the graph |
| `BlastRadii.BlastRadiusAnalyzer.AdmitAll` | src/change_risk_engine/blast_radius/analyzer.py:71-84 | one traversal answer is merged without repeats and without the source, the seen-set staying equal to the listed ids |
| `BlastRadii.ComputePathConfidence` | src/change_risk_engine/blast_radius/analyzer.py:38-42 | the loop computes the rounded product of the edge confidences |
| `BlastRadii.EstimateScope` | src/change_risk_engine/blast_radius/analyzer.py:137-150 | the threshold loop finds the band of the downstream count, a critical dependency lifting narrow to moderate |
| `BlastRadii.BlastRadiusAnalyzer.AverageConfidence` | src/change_risk_engine/blast_radius/analyzer.py:152-163 | the rounded average of the path confidences, 1 for an empty list |
| `BlastRadii.PathProductWithin` | src/change_risk_engine/blast_radius/analyzer.py:38-42 | a path whose edges have confidence at least c has product between c to its length and 1 |
| `BlastRadii.PathIsCertain` | src/change_risk_engine/blast_radius/analyzer.py:38-42 | a path has product 1 exactly when every edge on it has confidence 1 |
| `BlastRadii.EstimateConfidenceWithin` | src/change_risk_engine/blast_radius/analyzer.py:152-163 | the estimate lies between the least path confidence and 1 |
| `BlastRadii.PathsMultiply` | src/change_risk_engine/blast_radius/analyzer.py:38-42 | one edge has its own confidence, and the confidences of paths that follow each other multiply |
| `ImpactLists.ListsByChains` | src/change_risk_engine/blast_radius/analyzer.py:50-97 | direct are the changed ids the graph knows; `x` is downstream exactly when from `x` some chain of at most k edges, each from source to target, leads to a known changed id other than `x`, and upstream exactly when a chain leads from such an id to `x` |
| `ImpactLists.ChainLists` | src/change_risk_engine/domain/dependency.py:125-137 | the concrete graph in which `x` uses `b` and `b` uses `a`: a change to `a` has `b` and `x` downstream and nothing upstream, a change to `x` the reverse |
| `ImpactLists.DirectPerId` | src/change_risk_engine/blast_radius/analyzer.py:57-70 | one direct entry for each changed id the graph knows, in order and as often as it is named |
| `ImpactLists.EntriesAreNodes` | src/change_risk_engine/blast_radius/analyzer.py:28-97 | every entry copies its node, critical if it is marked so and in production unless it is marked otherwise, and carries the chain of its hop count that it was found by |
| `ImpactLists.RollupsAre` | src/change_risk_engine/blast_radius/analyzer.py:99-119 | each rollup names exactly what is changed or downstream and of that kind; critical dependencies are the downstream entries marked critical |
| `ImpactLists.ScopeByCount` | src/change_risk_engine/blast_radius/analyzer.py:137-150 | narrow, moderate, wide and extensive at up to 1, 4, 9 and more downstream entries, a critical one ruling out narrow |
| `ImpactLists.ConfidenceIsMean` | src/change_risk_engine/blast_radius/analyzer.py:152-163 | 1 with nothing downstream, else the mean confidence of the paths downstream, to four digits |
| `GraphBuilding.BuildIsSound` | src/change_risk_engine/dependencies/graph_builder.py:50-221 | after any sequence of catalog and configuration inputs, including runs cut short by an error, edges join known nodes and confidence is 1 exactly for catalog facts and otherwise at least 0.85 |
| `GraphBuilding.CatalogEdgesAreDeclared` | src/change_risk_engine/dependencies/graph_builder.py:50-119 | a catalog adds exactly the edges its foreign keys and views declare between things the graph knows |
| `GraphBuilding.CatalogEdgesInOrder` | src/change_risk_engine/dependencies/graph_builder.py:81-117 | and each of them as often as it is declared: one edge per foreign key, then one per reference of a view, in the order of the catalog |
| `GraphBuilding.ReferencingTableIsDownstream` | src/change_risk_engine/dependencies/graph_builder.py:81-96 | a table with a foreign key is found one hop downstream of the table it references |
| `GraphBuilding.RefsAreRefused` | src/change_risk_engine/dependencies/graph_builder.py:154-155 | a list of table references raises exactly when one of them does not have three parts |
| `GraphBuilding.ConfigIsRefused` | src/change_risk_engine/dependencies/graph_builder.py:121-221 | a configuration is refused exactly when a service, a replication or an endpoint in it holds a reference that does not have three parts |
| `GraphBuilding.RefsAreLinked` | src/change_risk_engine/dependencies/graph_builder.py:207-221 | an accepted list of references appends exactly one edge per reference, in order, so a table named twice is linked twice |
| `GraphBuilding.ConfigEdgesAreDeclared` | src/change_risk_engine/dependencies/graph_builder.py:121-205 | an accepted configuration adds exactly the edges it declares: the tables each service and endpoint uses, each replication, and for an endpoint the service behind it if the graph knows that service |
| `GraphBuilding.ConfigEdgesInOrder` | src/change_risk_engine/dependencies/graph_builder.py:132-205 | and appends them in the order of the sections and entries, each as often as it is declared |
| `GraphBuilding.ServicesAreLinked` | src/change_risk_engine/dependencies/graph_builder.py:132-155 | once the services are accepted each of them depends on every table it reads or writes |
| `GraphBuilding.CertainExactlyForCatalogPaths` | src/change_risk_engine/dependencies/graph_builder.py:88-96 | on a built graph a listed path has product 1 exactly when all its edges are catalog facts, and within k hops never less than 0.85 to the k |
| `GraphBuilding.FourHopConfidence` | src/change_risk_engine/blast_radius/analyzer.py:152-163 | on a built graph, within the default four hops, every reported path confidence and the estimate over any list are at least 0.522 |
| `BuiltGraphs.RefIsThreeParts` | src/change_risk_engine/dependencies/config.py:34-46 | a reference is read exactly when it is three texts without dots joined by dots, and its table is known under that text |
| `BuiltGraphs.CatalogNodes` | src/change_risk_engine/dependencies/graph_builder.py:50-79 | every node a catalog adds is written out by id, kind, name and metadata and stands for its database or a table or view it lists; each of these has a node, and nodes known before stay |
| `BuiltGraphs.CatalogTableNode` | src/change_risk_engine/dependencies/graph_builder.py:50-67 | the node of a listed table: the one known before under its id, else a table node of its name and database |
| `BuiltGraphs.CatalogJoins` | src/change_risk_engine/dependencies/graph_builder.py:81-117 | the edges of a catalog written out: a table depends on each known table its foreign keys reference, a view on each known table, else view, it reads, and nothing else is joined |
| `BuiltGraphs.ConfigNodes` | src/change_risk_engine/dependencies/graph_builder.py:121-221 | every node a configuration adds, refused or not, is written out and stands for a database, service, pipeline, table, replica or endpoint it names |
| `BuiltGraphs.ConfiguredNodes` | src/change_risk_engine/dependencies/graph_builder.py:121-184 | after an accepted configuration every database, service and endpoint it names has a node |
| `BuiltGraphs.AcceptedExactly` | src/change_risk_engine/dependencies/graph_builder.py:121-221 | a configuration is accepted exactly when every table reference in it has three parts |
| `BuiltGraphs.ConfigJoins` | src/change_risk_engine/dependencies/graph_builder.py:152-221 | the edges of an accepted configuration written out: services, pipelines and endpoints depend on the tables they name, a replica on its source, an endpoint on the service behind it if that is known, and nothing else is joined |
| `BuiltGraphs.ListedTableNode` | src/change_risk_engine/dependencies/graph_builder.py:50-67 | the same after any run of inputs: a table that a catalog lists keeps the node known before that catalog, and else is a table node of its name and database |
| `GraphBuilding.DependencyGraphBuilder.Link` | src/change_risk_engine/dependencies/graph_builder.py:88-96 | the edges the builder adds are never refused by the graph |
| `GraphBuilding.DependencyGraphBuilder.AddDatabaseMetadata` | src/change_risk_engine/dependencies/graph_builder.py:50-119 | the node loops and the foreign key and view loops build the specified graph and keep it valid |
| `GraphBuilding.DependencyGraphBuilder.AddTables` | src/change_risk_engine/dependencies/graph_builder.py:57-69 | the table loop adds a node for every table, first one kept |
| `GraphBuilding.DependencyGraphBuilder.AddViews` | src/change_risk_engine/dependencies/graph_builder.py:70-78 | the view loop adds a node for every view, first one kept |
| `GraphBuilding.DependencyGraphBuilder.LinkAllTables` | src/change_risk_engine/dependencies/graph_builder.py:81-96 | over all schemas and tables: the foreign keys of every table are linked in order, no node is added, and the graph stays valid |
| `GraphBuilding.DependencyGraphBuilder.LinkTable` | src/change_risk_engine/dependencies/graph_builder.py:84-96 | one edge per foreign key of the table, except that keys to unknown tables are skipped |
| `GraphBuilding.DependencyGraphBuilder.LinkAllViews` | src/change_risk_engine/dependencies/graph_builder.py:99-117 | over all schemas and views: the references of every view are linked in order, no node is added, and the graph stays valid |
| `GraphBuilding.DependencyGraphBuilder.LinkView` | src/change_risk_engine/dependencies/graph_builder.py:102-117 | one edge per reference of the view: to the table of that name if there is one, else to the view, else none |
| `GraphBuilding.DependencyGraphBuilder.AddAppConfig` | src/change_risk_engine/dependencies/graph_builder.py:121-205 | databases, services, replication, endpoints in order; the error names the malformed reference and what was read before it stays |
| `GraphBuilding.DependencyGraphBuilder.AddServices` | src/change_risk_engine/dependencies/graph_builder.py:132-155 | each service is added and linked to its tables in order; the first malformed reference ends the loop with an error and keeps what was added |
| `GraphBuilding.DependencyGraphBuilder.EnsureTableEdges` | src/change_risk_engine/dependencies/graph_builder.py:154-155 | the references are linked in order up to the first malformed one, which is named in the error |
| `GraphBuilding.DependencyGraphBuilder.EnsureTable` | src/change_risk_engine/dependencies/graph_builder.py:207-221 | the table is added if unknown and the dependent linked to it with confidence 0.85 |
| `GraphBuilding.DependencyGraphBuilder.AddReplication` | src/change_risk_engine/dependencies/graph_builder.py:157-184 | the entries are added in order up to the first with a malformed reference, of which nothing is added |
| `GraphBuilding.DependencyGraphBuilder.AddReplica` | src/change_risk_engine/dependencies/graph_builder.py:160-184 | the target depends on the source with confidence 0.9 |
| `GraphBuilding.DependencyGraphBuilder.AddApis` | src/change_risk_engine/dependencies/graph_builder.py:186-205 | each endpoint is added and linked to its service and tables in order; the first malformed reference ends the loop with an error and keeps what was added |
| `GraphBuilding.DependencyGraphBuilder.AddApi` | src/change_risk_engine/dependencies/graph_builder.py:187-203 | the endpoint depends on its service, if the graph has that service, with confidence 0.95 |
| `RiskFactors.LockScore` | src/change_risk_engine/risk/factors.py:198-212 | 0 for no operation, else the base score of some operation and at least that of every operation |
| `RiskFactors.Largest` | src/change_risk_engine/risk/factors.py:327-351 | the largest value over a non-empty list of tables |
| `RiskFactors.Score` | src/change_risk_engine/risk/factors.py:198-572 | each factor score lies between 0 and 95; what makes it what it is, is said factor by factor in `FactorCauses` |
| `RiskFactors.ComputeLockRisk` | src/change_risk_engine/risk/factors.py:198-212 | the loop finds the worst lock score |
| `RiskFactors.ComputeTargetTables` | src/change_risk_engine/risk/factors.py:176-182 | the loop collects the known tables of the operations, in order, with repeats |
| `RiskFactors.FirstBand` | src/change_risk_engine/risk/factors.py:327-351 | the band loop returns the first band whose threshold exceeds the value, else the default |
| `RiskFactors.ComputeTableSize` | src/change_risk_engine/risk/factors.py:327-351 | 20 without collected tables, else the band of the largest table |
| `RiskFactors.ComputeDataVolume` | src/change_risk_engine/risk/factors.py:357-380 | 20 without collected tables, else the band of the largest row estimate |
| `RiskFactors.ComputeQueryImpact` | src/change_risk_engine/risk/factors.py:420-451 | the base score plus at most one bump however many operations hit scan-heavy tables |
| `RiskFactors.ComputeHistoricalIncidents` | src/change_risk_engine/risk/factors.py:531-555 | the score of the number of incidents collected over the operations |
| `RiskFactors.ComputeFactors` | src/change_risk_engine/risk/factors.py:575-583 | the factor loop skips factors without a positive weight and keeps the fixed order |
| `FactorCauses.LockCauses` | src/change_risk_engine/risk/factors.py:30-104 | the lock risk is the highest of the levels of the operations, by a table of levels; without operations 0 |
| `FactorCauses.CompatibilityCauses` | src/change_risk_engine/risk/factors.py:107-121 | 90 exactly with an operation that removes or renames, 55 exactly with one that narrows and none of those, else 15 |
| `FactorCauses.CriticalityCauses` | src/change_risk_engine/risk/factors.py:247-266 | 10 exactly when nothing downstream is marked critical, 85 exactly when three different names are, else 55 |
| `FactorCauses.DependencyCauses` | src/change_risk_engine/risk/factors.py:269-288 | 10, 35, 60 and 85 for up to 1, 4, 9 and more direct and downstream entries |
| `FactorCauses.ProductionCauses` | src/change_risk_engine/risk/factors.py:291-321 | 10 exactly when the environment does not spell prod or production in any case; else 85 exactly when some downstream entry is in production, and 50 if none is |
| `FactorCauses.SizeCauses` | src/change_risk_engine/risk/factors.py:324-351 | 20 exactly without metadata of a named table, else by whether some named table has 1, 10, 100 or 500 GiB |
| `FactorCauses.VolumeCauses` | src/change_risk_engine/risk/factors.py:354-380 | likewise by rows, at a hundred thousand, one, ten and fifty million |
| `FactorCauses.IndexCauses` | src/change_risk_engine/risk/factors.py:383-417 | 90 or 70 exactly with a blocking index build, by whether a named table has 100 GiB; 40, 20 and 5 for a drop, a concurrent build and no index operation |
| `FactorCauses.QueryCauses` | src/change_risk_engine/risk/factors.py:420-451 | 55 or 15 by whether rows must be read, and 25 more exactly when a named table is scanned more than 1000 times and more often than its indexes |
| `FactorCauses.ReplicationCauses` | src/change_risk_engine/risk/factors.py:454-480 | 10, 45 and 75 for none, one and more replicas downstream and pipeline names together |
| `FactorCauses.RollbackCauses` | src/change_risk_engine/risk/factors.py:122-150 | 80 exactly with an operation that destroys, 15 exactly for a change of nothing but easily reversed ones, else 40 |
| `FactorCauses.ComplexityCauses` | src/change_risk_engine/risk/factors.py:518-528 | 10, 8 per operation, 6 per kind and 25 for an unclassified statement, up to 95 |
| `FactorCauses.IncidentCauses` | src/change_risk_engine/risk/factors.py:531-556 | 15 without incidents on record for the tables named, 65 for one, 10 more for each further one up to 95, each operation bringing those of its table |
| `FactorCauses.FactorsAre` | src/change_risk_engine/risk/factors.py:153-196 | an assessment reports exactly the thirteen factors that have a weight, each once, with score, weight and the label of its quarter |
| `FactorCauses.ProductionRaises` | src/change_risk_engine/risk/factors.py:291-321 | the same change aimed at production raises this factor, leaves the others, and lowers the overall score under no policy |
| `RiskGrowth.RollbackExact` | src/change_risk_engine/risk/factors.py:483-515 | appending lowers rollback difficulty exactly when an empty change receives only easily reversed operations |
| `RiskGrowth.SizeExact` | src/change_risk_engine/risk/factors.py:327-351 | appending lowers the table size score exactly when the first collected tables are all below 1 GiB |
| `RiskGrowth.VolumeExact` | src/change_risk_engine/risk/factors.py:357-380 | appending lowers the data volume score exactly when the first collected tables all have fewer than 100,000 rows |
| `RiskGrowth.OtherFactorsGrow` | src/change_risk_engine/risk/factors.py:198-555 | the ten other computed factors never fall when operations are appended |
| `RiskGrowth.FactorExact` | src/change_risk_engine/risk/factors.py:198-555 | for every factor: it does not fall exactly under that factor's condition |
| `RiskGrowth.SafeForEachFactor` | src/change_risk_engine/risk/factors.py:575-583 | the condition on the whole append is the conjunction of the factors' conditions |
| `RiskEngine.LoadPolicy` | src/change_risk_engine/risk/engine.py:29-55 | loading succeeds exactly when every factor name is known and the weights in force sum to 1 after rounding, and then yields those weights and thresholds and, in file order, the factors not in force, each of which is noted as not assessed; an error names the first unknown factor, or the sum |
| `RiskEngine.WeightsAre` | src/change_risk_engine/risk/engine.py:34-43 | a factor has the weight of the last entry that is implemented with a positive weight, and none without such an entry |
| `RiskEngine.NotInForceNext` | src/change_risk_engine/risk/engine.py:41-43 | each other entry is listed once, in file order |
| `EnumNames.KnownFactorNames` | src/change_risk_engine/risk/engine.py:36-38 | the seventeen names a policy file may use, and no other |
| `RiskEngine.OverallWithin` | src/change_risk_engine/risk/engine.py:89-91 | for every accepted policy the rounded overall score lies, up to 0.01, between the smallest and the largest weighted factor score; the lower bound needs that no weight sits on a factor that cannot be computed |
| `RiskEngine.OverallWithinWhole` | src/change_risk_engine/risk/engine.py:89-91 | with weights of at most four decimals the same bounds hold without any slack |
| `RiskEngine.ShippedIsAccepted` | policies/risk/factor-weights.yaml:21-37 | the default weights are accepted |
| `RiskEngine.ShippedScore` | policies/risk/factor-weights.yaml:21-37 | under the default weights no rounding ever takes place: the overall score is the weighted sum of the factor scores |
| `RiskEngine.UncomputedAddsNothing` | src/change_risk_engine/risk/engine.py:45-49 | a policy with all its weight on a factor without a calculator is accepted, and scores every change 0 |
| `RiskEngine.UncomputedWeightIsIgnored` | src/change_risk_engine/risk/engine.py:45-91 | whatever the other weights, the weight of a factor without a calculator makes no difference to any score |
| `RiskEngine.RoundingCanExceed` | src/change_risk_engine/risk/engine.py:89-91 | a concrete assessment under an accepted policy in which every factor scores at most 95 and the overall score is 95.01 |
| `RiskEngine.UnroundedWithin` | src/change_risk_engine/risk/engine.py:89-91 | before rounding, weights on computed factors that sum to 1 keep the weighted sum between the smallest and the largest score exactly |
| `RiskEngine.OverallOnScale` | src/change_risk_engine/risk/engine.py:89-91 | every assessment under an accepted policy scores between 0 and 100 |
| `RiskEngine.OverallGrows` | src/change_risk_engine/risk/engine.py:89-91 | if no factor falls, the rounded overall score does not fall, whatever the non-negative weights |
| `RiskEngine.AppendNeverLowersScore` | src/change_risk_engine/risk/engine.py:89-91 | over all accepted policies, appending never lowers the overall score exactly when the append is safe |
| `RiskEngine.UnsafeAppendCanLower` | src/change_risk_engine/risk/engine.py:89-91 | for an unsafe append there is an accepted policy under which the score drops |
| `RiskEngine.CreateFunctionLowers` | src/change_risk_engine/risk/factors.py:483-515 | under the default weights, whatever else is known, one CREATE FUNCTION added to a change without operations lowers its score by exactly 0.64 |
| `RiskEngine.LevelMonotone` | src/change_risk_engine/risk/engine.py:57-64 | a higher score never maps to a lower level, whatever the thresholds, ordered or not |
| `RiskEngine.LevelBoundaries` | src/change_risk_engine/risk/engine.py:57-64 | a level is given exactly when its threshold is not passed and those of the lower levels are |
| `RiskEngine.ShippedLevels` | policies/risk/factor-weights.yaml:42-46 | by default low ends at 24, medium at 49, high at 74 |
| `RiskEngine.ConfidenceAndUncertainty` | src/change_risk_engine/risk/engine.py:126-188 | the penalties are multiplied, clamped and rounded, and one note is listed for each reason |
| `RiskEngine.ConfidenceInUnit` | src/change_risk_engine/risk/engine.py:188 | confidence lies in [0, 1] |
| `FactorCauses.ConfidenceCauses` | src/change_risk_engine/risk/engine.py:131-188 | the confidence of the blast radius, or 0.5 without one, times 0.85 if some named table has no metadata, times 0.85, 0.7, 0.55 or 0.4 for one, two, three or more unclassified statements, rounded |
| `FactorCauses.NotesAre` | src/change_risk_engine/risk/engine.py:131-186 | each note is there exactly for its cause, with its count, tables, confidence or factor |
| `Reals.NearestEven` | src/change_risk_engine/risk/engine.py:91 | the rounding used throughout: the nearest number, of two equally near ones the even one, and only that |
| `RiskEngine.QuietExactly` | src/change_risk_engine/risk/engine.py:126-188 | the only notes are those on factors not in force exactly when every operation is classified, every table has metadata and the blast radius is at least as confident as the policy demands; then there is one note per factor not in force and no other |
| `RiskEngine.QuietMeansConfident` | src/change_risk_engine/risk/engine.py:134-188 | an assessment whose only notes are on factors not in force, as under the default policy, has the confidence of the blast radius, which is at least the configured minimum, for a blast radius confidence as the analyzer reports it |
| `RiskEngine.Assess` | src/change_risk_engine/risk/engine.py:89-124 | score, level, confidence and notes of one assessment |
| `Pipeline.Run` | src/change_risk_engine/pipeline.py:69-118 | no analyzer means an error and an unchanged change; otherwise the change keeps the concatenated operations and the report holds their assessment, one decision per policy rule tested on that assessment and those operations, the highest level, the approval flag the rules ask for and the recommendations of the triggered rules in order; `ChangeImpact` says which nodes the operations are looked up at |
| `Pipeline.ConcatAppend` | src/change_risk_engine/pipeline.py:77-80 | the operations the analyzers extract follow each other in the order of the analyzers |
| `ChangeImpact.OneLookup` | src/change_risk_engine/pipeline.py:85-90 | each operation that names a table is looked up once, under `table:` and database, schema and table joined by dots, the database being `unknown` if the change has none |
| `ChangeImpact.HitsExactly` | src/change_risk_engine/pipeline.py:82-100 | direct entries are the known nodes of the tables the operations name; downstream is what depends on one of them over at most four edges, upstream what one of them depends on |
| `ChangeImpact.ListedTableIsHit` | src/change_risk_engine/pipeline.py:82-91 | on a built graph a table listed by a catalog of the change's database is hit directly exactly when some operation names its schema and table; its entry is its node, a table node of that name and database unless something read before that catalog was known under the same id |
| `ChangeImpact.DirectArises` | src/change_risk_engine/pipeline.py:85-90 | every direct entry is the node of a table some operation names, in the database of the change |
| `ChangeImpact.ReferencingTableIsHit` | src/change_risk_engine/dependencies/graph_builder.py:81-96 | a change to a table has every other table with a foreign key to it downstream |
| `ChangeImpact.DottedNamesMeet` | src/change_risk_engine/dependencies/graph_builder.py:19-20 | a change to table `b.c` of schema `a` hits table `c` of schema `a.b` |
| `ChangeImpact.ConfiguredFirst` | src/change_risk_engine/dependencies/graph_builder.py:207-214 | a table that a configuration named before its catalog was read keeps the configuration's node, which has no database |
| `Pipeline.ContextGrows` | src/change_risk_engine/pipeline.py:82-100 | appending operations only extends operations, node ids and blast radius of the context |
| `Pipeline.AppendingNeverLooksSafer` | src/change_risk_engine/pipeline.py:82-102 | end to end, for any graph, tables, statistics and incidents: appending never lowers the score under any accepted policy exactly when the append is safe |
| `Pipeline.EstablishedChangeNeverLooksSafer` | src/change_risk_engine/pipeline.py:82-102 | a change that already has a table with collected metadata never gets a lower score, nor a lower score-derived level, from further operations |
| `Pipeline.FinalLevelNeverFalls` | src/change_risk_engine/pipeline.py:82-118 | under rules that set levels and ask for approval on upward conditions only, a safe append, and so any append to a change with collected metadata, never lowers the level after the rules and never takes back a demand for approval |
| `Pipeline.DefaultVerdictNeverFalls` | policies/risk/rules/database-change-policies.yaml:15-103 | that holds of the rules that come with the repository, with no premise on them |
| `RuleConditions.UpwardStaysMet` | src/change_risk_engine/policy/rules.py:18-96 | a condition a reader can recognise (a score at least or above a bound, a level in a list closed upward, an operation contained or enough of them, any test of the environment) stays met when no score and no level falls and operations are appended |
| `RuleConditions.DefaultRulesRise` | policies/risk/rules/database-change-policies.yaml:15-103 | the level-setting and approval rules of the repository have such conditions only |
| `RuleConditions.DefaultRulesAreUsable` | policies/risk/rules/database-change-policies.yaml:15-103 | testing them never raises an error, on any assessment |
| `RuleOutcomes.NumbersCompare` | src/change_risk_engine/policy/rules.py:32-53 | what each comparison of two numbers answers |
| `RuleOutcomes.TextsCompare` | src/change_risk_engine/policy/rules.py:32-53 | what each comparison of two texts answers: equality, and the order of the dictionary |
| `RuleOutcomes.MembersCompare` | src/change_risk_engine/policy/rules.py:56-69 | membership in lists and texts, its negation and reverse, and minimum lengths |
| `RuleOutcomes.OddCompare` | src/change_risk_engine/policy/rules.py:32-96 | missing fields, truth values against numbers, comparisons that raise, and operators that do not exist |
| `RuleOutcomes.EqualExactly` | src/change_risk_engine/policy/rules.py:32-37 | any two values are equal exactly when they are the same document, truth values read as the numbers 0 and 1 |
| `RuleOutcomes.ListsCompare` | src/change_risk_engine/policy/rules.py:40-53 | lists are ordered by their first difference, or by length if one starts the other |
| `RuleOutcomes.PathsResolve` | src/change_risk_engine/policy/rules.py:18-29 | a field path goes through keys and list positions and comes to nothing where one is missing |
| `RuleOutcomes.FactorSeen` | src/change_risk_engine/policy/engine.py:84-93 | a rule sees the score, the weight and the label of each factor the assessment reports |
| `RuleOutcomes.OperationTest` | src/change_risk_engine/policy/engine.py:84-93 | a test for the name of a kind of operation holds exactly when the change has one |
| `RuleOutcomes.DefaultOutcome` | policies/risk/rules/database-change-policies.yaml:15-103 | under the default rules approval is asked exactly for a high or critical level in production, for size at least 75 and compatibility at least 55 in production, or for dependency count at least 85; exactly the second makes the final level critical, which is otherwise the assessed one; each of the five rules is triggered exactly when it says |
| `RuleOutcomes.ReachedExactly` | src/change_risk_engine/policy/engine.py:84-93 | an assessment reaches a bound for a factor exactly when the factor has a weight and its score reaches it |
| `RuleOutcomes.LargeBreakIsCritical` | policies/risk/rules/database-change-policies.yaml:30-53 | end to end under the default policy and rules: in production, an operation that breaks or narrows what is in use and a named table of 100 GiB or more make the change critical and ask for approval |
| `Pipeline.QuietAssessmentIsConfident` | src/change_risk_engine/risk/engine.py:134-188 | on a graph the builder made, an assessment whose only notes are on factors not in force has at least the configured minimum confidence, and never less than 0.522 |
| `RiskPolicy.RiskPolicyEngine.Evaluate` | src/change_risk_engine/policy/engine.py:97-140 | fails exactly when testing a rule raises or a triggered rule names no existing level, and the error names the first such rule; else the final level is the highest of the assessed one and all triggered ones, each decision escalates exactly when its rule asks for more than the assessed level and all rules before it, approval is asked exactly when a triggered rule asks for it, and the recommendations are those of the triggered rules in order |
| `RiskPolicy.RiskPolicyEngine.Consider` | src/change_risk_engine/policy/engine.py:101-138 | one turn of the loop: it fails exactly on a broken rule, else escalates only upward and keeps the well-formed recommendations |
| `RiskPolicy.DecisionsMean` | src/change_risk_engine/policy/engine.py:101-138 | decision i is triggered exactly when all conditions of rule i hold, approves exactly when it is and the rule asks for it, and escalates to a level exactly when the rule names it and it is above the assessed level and all that earlier triggered rules name |
| `RiskPolicy.ExtrasOfOne` | src/change_risk_engine/policy/engine.py:122-131 | a recommendation is kept exactly with a title, a detail and a known priority, defaults being recommended and review |
| `RiskPolicy.AllAddedAppend` | src/change_risk_engine/policy/engine.py:122-131 | recommendations follow the order of the rules |
| `RiskPolicy.AllAddedOfOne` | src/change_risk_engine/policy/engine.py:109-131 | a rule whose conditions all hold adds its recommendations, any other rule none |
| `RiskPolicy.AllHoldExactly` | src/change_risk_engine/policy/engine.py:102-107 | a rule triggers exactly when all its conditions hold; testing it raises exactly when a condition raises and all before it hold |
| `RiskPolicy.HighestIsUnique` | src/change_risk_engine/policy/engine.py:106-111 | the final level is determined by the rules |
| `RiskPolicy.VerdictNeverFalls` | src/change_risk_engine/policy/engine.py:97-140 | if the assessed level does not fall and no condition of a level-setting or approval rule ceases to hold, neither the final level nor the approval falls |
| `RiskPolicy.OrderIsIrrelevant` | src/change_risk_engine/policy/engine.py:97-115 | permuting the rules changes neither the final level, nor the approval, nor whether evaluation succeeds |
| `AuditLog.NoProblemsMeansAccepted` | src/dbre_platform/audit/logger.py:125-134 | no problem is reported exactly for the logs whose every event chains from the one before and carries its own digest |
| `AuditLog.ProblemsAre` | src/dbre_platform/audit/logger.py:117-134 | a line is reported for its link exactly when it does not carry the hash of the line before, or zeros on the first, and for its content exactly when its hash is not the digest of its fields |
| `AuditLog.TipDeterminesLog` | src/dbre_platform/audit/logger.py:118-134 | two accepted logs with the same last hash are equal event for event, or a digest collision or a preimage of the genesis hash occurs among their own payloads |
| `AuditLog.PrefixAccepted` | src/dbre_platform/audit/logger.py:118-134 | every prefix of an accepted log is accepted: a dropped suffix goes unnoticed |
| `AuditLog.EditIsPinpointed` | src/dbre_platform/audit/logger.py:127-133 | rewriting the content of event i of an accepted log is reported as exactly one problem, at line i + 1, unless old and new content have the same digest |
| `AuditLog.RemovalIsReported` | src/dbre_platform/audit/logger.py:127-133 | removing any event but the last is reported, barring a broken digest |
| `AuditLog.AuditLogger.LastHash` | src/dbre_platform/audit/logger.py:68-78 | the loop finds the hash on the last non-blank line, the genesis hash if there is none |
| `AuditLog.AuditLogger.Record` | src/dbre_platform/audit/logger.py:80-107 | appends exactly one event, chained to the last and carrying its digest; an accepted log stays accepted |
| `AuditLog.AuditLogger.ReadAll` | src/dbre_platform/audit/logger.py:109-116 | the events of the non-blank lines, in order |
| `AuditLog.AuditLogger.VerifyChain` | src/dbre_platform/audit/logger.py:118-134 | the loop lists exactly the specified problems and accepts exactly the accepted logs |
| `ProvisionGate.Provisioner.Provision` | src/dbre_platform/provisioning/base.py:52-112 | one event per call with the outcome and details of the branch taken; the hook runs exactly when policy and readiness both pass; the result or the error tells which |
| `ProvisionGate.Provisioner.ProvisionAll` | src/dbre_platform/provisioning/base.py:52-112 | over any run of calls the log is the run's trail, the hook ran for the allowed calls only, and an accepted log is accepted throughout |
| `ProvisionGate.OneEventPerCall` | src/dbre_platform/provisioning/base.py:52-124 | event i tells of call i: who asked for what, blocked with the violations or with score and threshold, failed with the error, or succeeded or failed with the result of the hook; it is chained to the event before |
| `ProvisionGate.TrailIsAccepted` | src/dbre_platform/provisioning/base.py:57-111 | the gate never breaks the hash chain |
| `ProvisionGate.LogReportsWhatRan` | src/dbre_platform/provisioning/base.py:89-111 | the targets of the unblocked events are exactly the targets the hook was run for, in order |
| `ProvisionGate.TipSettlesWhatRan` | src/dbre_platform/audit/logger.py:118-134 | from one accepted log, the last hash alone settles which targets were provisioned, barring a broken digest |
| `SqlSplitting.PiecesRebuild` | src/change_risk_engine/analyzers/database/parser.py:59-88 | joining the unstripped pieces with the separator rebuilds the text |
| `SqlSplitting.PiecesDecompose` | src/change_risk_engine/analyzers/database/parser.py:59-88 | no top-level separator falls into a piece, and every piece but the last closes its quotes and ends at depth 0 |
| `SqlSplitting.CutIsUnique` | src/change_risk_engine/analyzers/database/parser.py:59-88 | the cut of a text is the only decomposition of that kind that joins back to it |
| `SqlSplitting.KeptWholeExactly` | src/change_risk_engine/analyzers/database/parser.py:59-88 | a text is kept in one piece exactly when no separator in it is outside parentheses and quotes |
| `SqlSplitting.DollarBodyIsCut` | src/change_risk_engine/analyzers/database/parser.py:60 | a body between `$$` is not kept in one piece: `$$a,b$$` is cut in two |
| `SqlSplitting.SplitInvertsJoin` | src/change_risk_engine/analyzers/database/parser.py:88 | splitting the join of closed parts returns the parts, stripped, without the blank ones |
| `SqlSplitting.CutPieces` | src/change_risk_engine/analyzers/database/parser.py:61-87 | the character loop over depth and quote flags computes that cut |
| `SqlSplitting.SplitTopLevel` | src/change_risk_engine/analyzers/database/parser.py:59-88 | the loop followed by stripping and dropping blank pieces |
| `SqlSplitting.RefRoundTrip` | src/change_risk_engine/analyzers/database/parser.py:47-56 | a printed table reference is read back to its schema and name exactly when it is of a supported form: not a quoted schema with a plain name, and no quoted lone dot in front |
| `SqlSplitting.PlainSchemaSplits` | src/change_risk_engine/analyzers/database/parser.py:50-52 | with a plain schema the first dot separates, whatever the quoted name contains |
| `SqlSplitting.QuotedSchemaSplits` | src/change_risk_engine/analyzers/database/parser.py:53-55 | with both parts quoted the quotes between them separate, whatever they contain |
| `SqlSplitting.MixedRefFails` | src/change_risk_engine/analyzers/database/parser.py:53-56 | a quoted schema with a plain name is never read correctly |
| `SqlSplitting.TableListRoundTrip` | src/change_risk_engine/analyzers/database/parser.py:369-378 | a comma-separated list of references, however spaced and whatever its quotes hold, is read back one by one exactly when all are of a supported form |
| `Forecasting.RefusedExactly` | src/dbre_platform/capacity/forecasting.py:89-103 | the fit is refused exactly for fewer than two points or points that share one day |
| `Forecasting.FitIsNormal` | src/dbre_platform/capacity/forecasting.py:93-107 | the fitted line satisfies both normal equations |
| `Forecasting.FitIsBest` | src/dbre_platform/capacity/forecasting.py:82-107 | no line has a smaller sum of squared residuals, and only the fitted line attains it |
| `Forecasting.ExactLineRecovered` | src/dbre_platform/capacity/forecasting.py:82-107 | a history that lies on a line is fitted by that line |
| `Forecasting.FitIgnoresOrder` | src/dbre_platform/capacity/forecasting.py:94-107 | permuting the history changes neither the fit nor whether it is refused |
| `Forecasting.RiskMonotone` | src/dbre_platform/capacity/forecasting.py:110-134 | the risk never drops as utilisation rises or exhaustion comes nearer, no projection counting as infinitely far, whatever the thresholds |
| `Forecasting.SortKeeps` | src/dbre_platform/capacity/forecasting.py:150 | sorting by day keeps exactly the points |
| `Forecasting.CrossingDay` | src/dbre_platform/capacity/forecasting.py:158-160 | a growing line is below the limit before its crossing day and on it that day |
| `Forecasting.ProjectionIsFirstCrossing` | src/dbre_platform/capacity/forecasting.py:157-164 | no projection exactly without growth; a positive one is the first day from the latest sample on which the line reaches the limit; zero exactly when it already has |
| `Forecasting.ForecastFitsHistory` | src/dbre_platform/capacity/forecasting.py:110-178 | the forecast fits the history itself: value, utilisation and projection are those of the latest sample, of several of one day the one listed last, on the fitted line; the risk is critical exactly from 90% of the limit on or with a projection within the critical days, fine exactly below 75% with no projection or one beyond both thresholds, by default 30 and 90 days; a limit of 0 or less is refused |
| `Bootstrap.RetryRefinesOneRun` | src/dbre_platform/provisioning/k3s.py:157-180 | for create-if-absent and assign scripts and drops after any applied prefix: success means the state of one clean run, and whatever is reported a further clean run still reaches it |
| `Bootstrap.RetryDiscipline` | src/dbre_platform/provisioning/k3s.py:172-180 | the tunnel is ensured once before each call, at most `attempts` calls happen, only dropped tunnels are retried |
| `Bootstrap.FourDrops` | src/dbre_platform/provisioning/k3s.py:161-180 | over a tunnel that drops every time a script is tried four times and no more |
| `Bootstrap.RerunCompletes` | src/dbre_platform/provisioning/k3s.py:167-170 | running the script again after any applied prefix ends where one uninterrupted run would have |
| `Bootstrap.CreateReportIsExact` | src/dbre_platform/provisioning/k3s.py:438-442 | for the plain CREATE DATABASE success is true, and the report is wrong exactly when the first attempt that took effect broke off after it did |
| `Bootstrap.DroppedCreateLooksFailed` | src/dbre_platform/provisioning/k3s.py:167-170 | a concrete run in which the database is created and reported as failed |
| `Bootstrap.SingleStatement` | src/dbre_platform/provisioning/k3s.py:448-451 | a retried create-if-absent either took effect as one run would or not at all; a reported success means it did |
| `Bootstrap.Server.Resilient` | src/dbre_platform/provisioning/k3s.py:157-180 | the retry loop returns the specified outcome, state and counts; a call that raises ends it at once |
| `Bootstrap.Server.EnableExtensions` | src/dbre_platform/provisioning/k3s.py:448-451 | the extension loop skips failures and stops only if the tunnel is down or a call raises; the state is that of a clean run of some of the extensions, among them all that are reported as enabled |
| `Bootstrap.Server.BootstrapPostgres` | src/dbre_platform/provisioning/k3s.py:434-464 | success means the state of an uninterrupted bootstrap in which every extension reported as enabled is there; an error names the stage it stopped at: the stages before it are complete, the database is as it was or created, each extension tried is there or not, and rerunning the settings or roles script that stopped completes it |
| `Bootstrap.CleanStateNames` | src/dbre_platform/provisioning/k3s.py:434-464 | after an uninterrupted bootstrap exactly what was there, the database, the extensions that are available, and what settings and roles name, is there |
| `Bootstrap.CredentialsMatchOnlyNewRoles` | src/dbre_platform/provisioning/k3s.py:459-467 | after a successful roles script the generated password is the role's password exactly when the role is new or already had it |
| `Bootstrap.ProvisionedAgain` | src/dbre_platform/provisioning/k3s.py:459-467 | a concrete role: the second run leaves the password of the first |
| `DrDrill.RestoresOnlyIntactDumps` | src/dbre_platform/backup/dr_test.py:122-178 | `pg_restore` runs only on the path of the dump, after the file there twice had the digest of what was dumped, once before anything was created and once right before |
| `DrDrill.DropsWhatItCreated` | src/dbre_platform/backup/dr_test.py:136-202 | the throwaway database is dropped exactly once, last, if its creation was reported a success, and otherwise never, also when an error escapes |
| `DrDrill.LeavesBehindExactly` | src/dbre_platform/backup/dr_test.py:139-212 | any drill, one that an error escapes included, leaves the throwaway database behind exactly when it was reported created and the drop took no effect, or its creation took effect without being reported a success; a drill that returns then has a failed last step, and a passed one leaves the server as it was |
| `DrDrill.TimedOutCreationStays` | src/dbre_platform/backup/dr_test.py:139-142 | a creation that times out after it took effect: the error escapes, no drop is tried, the database stays |
| `DrDrill.TimedOutDropStays` | src/dbre_platform/backup/dr_test.py:196-202 | a drop that times out before it takes effect: the database stays after a drill in which all else worked |
| `DrDrill.PassesExactly` | src/dbre_platform/backup/dr_test.py:54-56 | the report passes exactly when dump, both checksums, creation, restore, every query and the cleanup succeeded |
| `DrDrill.SafeNameExactly` | src/dbre_platform/backup/dr_test.py:37 | a name is safe exactly if it is a small letter followed by at most 62 small letters, digits and underscores |
| `DrDrill.DefaultDrill` | src/dbre_platform/backup/dr_test.py:80-212 | the whole report and all that is done in a drill in which everything works and no query is asked for |
| `DrDrill.RunDrTest` | src/dbre_platform/backup/dr_test.py:80-212 | a result is returned exactly when no error escapes; it holds the whole report, actions and server state of the scenario; an unsafe name is refused before anything is done |
| `DrDrill.UseTarget` | src/dbre_platform/backup/dr_test.py:163-212 | the drop runs on every way out of the try block, and its step is in the report even when the answer was settled before |
| `DrDrill.RestoreAndVerify` | src/dbre_platform/backup/dr_test.py:163-195 | the early answer refers to the list the cleanup step is appended to later |
| `DrDrill.CheckBackup` | src/dbre_platform/backup/dr_test.py:122-212 | from the checksum on: what is done, left and reported for a dump that was written |
| `DrDrill.UseBackup` | src/dbre_platform/backup/dr_test.py:136-212 | from the creation on: nothing more is done after a creation that fails, and a creation that raises escapes |
| `DrDrill.RunQueries` | src/dbre_platform/backup/dr_test.py:182-195 | the query loop appends one step per query, a raised error being a failed step |
| `DrDrill.World.TakeBackup` | src/dbre_platform/backup/local_backup.py:91-138 | the recorded checksum is that of the dump just written; an error other than a backup error is passed on |
| `DrDrill.World.VerifyBackup` | src/dbre_platform/backup/local_backup.py:156-162 | a match exactly when the file exists, can be read and has the recorded checksum; an error while it is read is raised |
| `DrDrill.World.RestoreFrom` | src/dbre_platform/backup/local_backup.py:164-211 | a dump that does not match its record, or cannot be read, is never handed to `pg_restore` |
| `FieldPaths.FailsExactlyWhenBlocked` | src/dbre_platform/config/overrides.py:33-39 | a set fails exactly when something stored on the way is not a mapping |
| `FieldPaths.EmptySegmentExactly` | src/dbre_platform/config/overrides.py:29-31 | a path has an empty segment, and is refused, exactly if it is empty, starts or ends with a dot or has two dots in a row |
| `FieldPaths.ResolveAfterSet` | src/dbre_platform/policy/rules.py:17-31 | after a set the path resolves to the value, and paths below it to what lies below the value |
| `FieldPaths.UnrelatedUnchanged` | src/dbre_platform/config/overrides.py:26-40 | at every path that is not a prefix of the one set, nor has it as a prefix, nothing changes |
| `FieldPaths.MappingsAbove` | src/dbre_platform/config/overrides.py:33-39 | above the path set there are mappings afterwards |
| `FieldPaths.PutsCommute` | src/dbre_platform/config/overrides.py:26-40 | sets of unrelated paths commute, failures included |
| `FieldPaths.SetsCommute` | src/dbre_platform/config/overrides.py:26-40 | the same for path texts, empty segments included |
| `FieldPaths.OrderIsIrrelevant` | src/dbre_platform/config/overrides.py:58-66 | for overrides whose paths are pairwise unrelated every order gives the same document or fails |
| `FieldPaths.ResolveFieldPath` | src/dbre_platform/policy/rules.py:17-31 | the loop resolves the path, `Null` for anything missing |
| `Prelude.JoinInvertsSplit` | src/dbre_platform/config/overrides.py:29 | splitting a path text loses nothing: different texts are different paths |
| `FieldOverrides.SetFieldPath` | src/dbre_platform/config/overrides.py:26-40 | on mapping objects held by reference and shared in any way: refused exactly when a segment is empty or something on the walk is not a mapping, and then every mapping is as it was although the walk writes as it goes; else the walk is made and the entry itself stored |
| `FieldOverrides.SetDefault` | src/dbre_platform/config/overrides.py:34 | an existing entry is returned and nothing changed; a missing one becomes a new empty mapping under that key |
| `FieldOverrides.OnlyTargetWritten` | src/dbre_platform/config/overrides.py:32-40 | of the mappings there were, a set writes one key of one of them, with the value if the path ends there, else with a new mapping |
| `FieldOverrides.NothingChangedExactly` | src/dbre_platform/config/overrides.py:40 | the mappings there were are all as they were exactly when the set stored what was there already |
| `FieldOverrides.DeepCopy` | src/dbre_platform/config/overrides.py:63 | every mapping the document reaches gets one new image that refers to the images, so the copy shares exactly what the document shares; nothing is written |
| `FieldOverrides.Reached` | src/dbre_platform/config/overrides.py:63 | the loop finds a set of mappings that contains the document and everything its entries lead to |
| `FieldOverrides.ApplyTo` | src/dbre_platform/config/overrides.py:64-65 | the loop over the overrides, each stored by reference, up to the first that is refused |
| `FieldOverrides.ApplyFieldOverrides` | src/dbre_platform/config/overrides.py:58-66 | the overrides are applied in order to a copy, their values not copied; without overrides the document itself is returned |
| `OverrideSharing.SetInside` | src/dbre_platform/config/overrides.py:32-40 | a set in a document that shares nothing keeps it so, affects only what is at and below the path, and adds a reference to things outside only for the value stored |
| `OverrideSharing.SetIsPut` | src/dbre_platform/config/overrides.py:26-40 | on a document that shares nothing the in-place set is the set on values |
| `OverrideSharing.EntersExactly` | src/dbre_platform/config/overrides.py:64-65 | an override leaves the copied document on its walk exactly when its path goes through the path of an earlier override |
| `OverrideSharing.UnrelatedOverrides` | src/dbre_platform/config/overrides.py:58-66 | if no override goes through an earlier one, the result, refusals included, is that of applying the values one by one, whatever the values share |
| `OverrideSharing.UnsharedOverrides` | src/dbre_platform/config/overrides.py:58-66 | if the values share nothing, the same holds also for overrides that go through one another |
| `OverrideSharing.StoredValueIsWritten` | src/dbre_platform/config/overrides.py:64-65 | `{"a": d, "c": d, "a.b": 1}` with `d` empty, applied to an empty document: `d` is written, and the result has the write under `c` too, where applying the values leaves `c` empty |
| `SharedDocuments.CallerIsWrittenExactly` | src/dbre_platform/config/overrides.py:58-66 | for every document and all values, whatever they share: a mapping that existed before the call is written exactly when a proper prefix of the path of an applied override leads, in the document as given, to the entry where an earlier override stores its value; otherwise all of them stay as they were |
| `SharedDocuments.VisitsExactly` | src/dbre_platform/config/overrides.py:58-66 | over the whole run, whatever earlier overrides replaced or created: a walk comes to a mapping that was not copied exactly when two overrides meet so in the copy as it was at first |
| `SharedDocuments.SetPlaced` | src/dbre_platform/config/overrides.py:26-40 | a set whose walk stays in the copy and what was made since keeps each mapping at one place of the original copy, and stores its value at the place the path had there |
| `SharedDocuments.CallerIsWrittenByWalks` | src/dbre_platform/config/overrides.py:58-66 | the same told by the states of the run: exactly when the walk of an applied override comes to a mapping of the caller |
| `SharedDocuments.CallerIsWritten` | src/dbre_platform/config/overrides.py:58-66 | for a document that shares nothing: exactly when an applied override goes through the path of an earlier one |
| `SharedDocuments.AliasesMeet` | src/dbre_platform/config/overrides.py:58-66 | `{"x.v": d, "y.v.b": 1}` where `x` and `y` are one mapping: the second override goes through the place of the first, though neither path goes through the other |
| `Serialization.OperationRoundTrip` | src/change_risk_engine/persistence/serialization.py:47-81 | an operation is read back exactly when database operations, and only they, have kind "database" |
| `Serialization.OperationsRoundTrip` | src/change_risk_engine/persistence/serialization.py:113 | the same for a list of operations of any length |
| `Serialization.ChangeRoundTrip` | src/change_risk_engine/persistence/serialization.py:84-115 | a change is read back as stored exactly when that holds of all its operations |
| `AssessmentRecords.EvidenceRoundTrip` | src/change_risk_engine/persistence/serialization.py:121-126 | evidence is read back as stored |
| `AssessmentRecords.FactorRoundTrip` | src/change_risk_engine/persistence/serialization.py:129-148 | a factor is read back with its evidence |
| `AssessmentRecords.NodeRoundTrip` | src/change_risk_engine/persistence/serialization.py:151-161 | a node is read back as stored |
| `AssessmentRecords.EdgeRoundTrip` | src/change_risk_engine/persistence/serialization.py:164-185 | an edge is read back, with or without a time of last observation |
| `AssessmentRecords.AffectedRoundTrip` | src/change_risk_engine/persistence/serialization.py:188-207 | an affected resource is read back with its whole path |
| `AssessmentRecords.BlastRoundTrip` | src/change_risk_engine/persistence/serialization.py:210-239 | a blast radius is read back with its lists and rollups |
| `AssessmentRecords.RecommendationRoundTrip` | src/change_risk_engine/persistence/serialization.py:242-261 | a recommendation is read back, with or without a related factor |
| `AssessmentRecords.DecisionRoundTrip` | src/change_risk_engine/persistence/serialization.py:264-283 | a policy decision is read back as stored |
| `AssessmentRecords.NoteRoundTrip` | src/change_risk_engine/persistence/serialization.py:286-291 | an uncertainty note is read back as stored |
| `AssessmentRecords.AssessmentRoundTrip` | src/change_risk_engine/persistence/serialization.py:294-335 | every assessment is read back as stored, for nested lists of any length |
| `EnumNames.OperationNamed` | src/change_risk_engine/domain/enums.py:105-138 | the stored name of an operation identifies it |
| `EnumNames.FactorNamed` | src/change_risk_engine/domain/enums.py:141-158 | the stored name of a factor identifies it, and is the name a weights policy uses |
| `AssessmentStore.FileAssessmentStore.SaveAndGetChange` | src/change_risk_engine/persistence/store.py:102-106 | a change saved and got back is the same exactly when its operations are storable |
| `AssessmentStore.FileAssessmentStore.GetAssessment` | src/change_risk_engine/persistence/store.py:111-114 | the assessment last saved under the id, an error exactly when there is none |
| `AssessmentStore.FileAssessmentStore.SaveAssessment` | src/change_risk_engine/persistence/store.py:108-109 | replaces what was saved under the id and nothing else |
| `AssessmentStore.FileAssessmentStore.ListAssessments` | src/change_risk_engine/persistence/store.py:116-130 | the loop with its early exit over the files sorted by modification time gives the specified listing |
| `AssessmentStore.ListsTheNewest` | src/change_risk_engine/persistence/store.py:119-129 | a listing gives records of the wanted change newest first, no such record saved after one it gives is left out, and none at all if it gives fewer than the limit |
| `AssessmentStore.LimitKeptExactly` | src/change_risk_engine/persistence/store.py:127-129 | the listing is a prefix of the matching records, complete if shorter than the limit, and keeps the limit exactly when that is positive or nothing matches |

## Left out

- RiskEngine.OverallWithin: stated up to 0.01, because contributions are rounded to four digits and the weight sum is compared with 1 only after rounding; RiskEngine.RoundingCanExceed shows that the rounded total can pass the largest score by that hundredth. RiskEngine.OverallWithinWhole is the statement without slack, for weights of at most four decimals.
- RiskEngine.Assess: evidence, affected resources, dependencies and recommendations of an assessment, which are texts and copies of the blast radius.
- Pipeline.Run: the assessment's own recommendations and the explanation of a report.
- BlastRadii.BlastRadiusAnalyzer.Analyze: the rollups are sets here, sorted lists in the program.
- RiskEngine.QuietMeansConfident: assumes the blast radius confidence is a multiple of 0.0001 in [0, 1]; Pipeline.QuietAssessmentIsConfident discharges that for every graph the builder makes.
- Bootstrap.Server.Resilient: scripts are repeatable or a single statement, the two forms the bootstrap sends; a script that mixes plain CREATE with others is not modelled.
- Bootstrap.Server.BootstrapPostgres: which of several causes ended a call that failed, beyond whether the tunnel was down, the call raised or the statement was refused.
- DrDrill.RunDrTest: verification queries are assumed not to create or drop databases; step details and durations are not modelled, and the trace records one drill.
- FieldOverrides.DeepCopy: reached mappings are copied by a work list, where the library copies by recursion; that values other than mappings are never updated in place is taken for granted.
- SharedDocuments.CallerIsWritten: compares paths, which suffices for documents that share nothing; SharedDocuments.CallerIsWrittenExactly has the condition for all documents, those with aliases included.
- AssessmentRecords.AssessmentRoundTrip: the readers here refuse fields of the wrong type, which the program would store unchanged.
- RiskPolicy.RiskPolicyEngine.Evaluate: rule entries that are not well formed, such as a condition without an operator; whether a regular expression matches is given, and list positions in a field are written with the digits 0 to 9.
- GraphBuilding.DependencyGraphBuilder.AddAppConfig: validation of the configuration file before the builder sees it.
- AuditLog.AuditLogger.Record: printing an event to a JSON line and parsing it back is taken to be the identity; details that are not JSON values are not modelled.
- ProvisionGate.Provisioner.Provision: the policy engine's rules and the readiness checks are given outcomes of the call; errors raised while they are evaluated, and interrupts that are not ordinary exceptions, leave no event and are not modelled.
- AssessmentStore.FileAssessmentStore.ListAssessments: the directory listing is given; files that are not records, and files written by other programs, are not modelled.
- Floating point: all arithmetic is exact over the reals, with Python's half-even rounding where the program rounds.
- Reason, evidence and explanation texts, and the recommendations the assessment itself makes.
- The regular expressions that recognise SQL statements, and statement splitting by the SQL library; matched groups are the input.
- YAML, JSON and schema validation; dates and times are texts that print and parse back to themselves.
- Listing and pruning of backups, additional extensions, building overrides from command-line flags.
- Deployment, outcome and override records; the PostgreSQL store; the command line, the HTTP service, dashboards and reports.
- Terraform, Docker, Kubernetes and cloud resources behind the provisioning hook.
- Service-level objectives and tag resolution, which are one-line ratios and map merges.
