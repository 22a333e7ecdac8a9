/** Enumerations as the strings they are stored under. */
module EnumNames {
  import opened Prelude
  import opened Changes
  import opened Dependencies
  import opened BlastRadii
  import opened RiskFactors
  import opened RiskEngine

  datatype ChangeType =
    | Database | Application | Api | Infrastructure | Configuration | Security | DataPipeline
    | InfrastructureAsCode | Kubernetes | CloudResource

  datatype ChangeSource = Cli | Api | WebUi | GitDiff | PullRequest | Manual

  datatype Priority = Required | Recommended | Optional

  function OperationName(x: DatabaseOperation): string {
    match x
    case CreateTable => "create_table"
    case AlterTable => "alter_table"
    case DropTable => "drop_table"
    case RenameTable => "rename_table"
    case AddColumn => "add_column"
    case DropColumn => "drop_column"
    case AlterColumnType => "alter_column_type"
    case RenameColumn => "rename_column"
    case SetColumnDefault => "set_column_default"
    case DropColumnDefault => "drop_column_default"
    case SetColumnNotNull => "set_column_not_null"
    case DropColumnNotNull => "drop_column_not_null"
    case CreateIndex => "create_index"
    case CreateIndexConcurrently => "create_index_concurrently"
    case DropIndex => "drop_index"
    case AddConstraint => "add_constraint"
    case DropConstraint => "drop_constraint"
    case AddForeignKey => "add_foreign_key"
    case AddPrimaryKey => "add_primary_key"
    case CreateView => "create_view"
    case DropView => "drop_view"
    case AlterView => "alter_view"
    case CreateFunction => "create_function"
    case DropFunction => "drop_function"
    case AlterFunction => "alter_function"
    case AttachPartition => "attach_partition"
    case DetachPartition => "detach_partition"
    case UnknownOperation => "unknown"
  }

  const OPERATIONS: seq<DatabaseOperation> := [
    CreateTable, AlterTable, DropTable, RenameTable, AddColumn,
    DropColumn, AlterColumnType, RenameColumn, SetColumnDefault, DropColumnDefault,
    SetColumnNotNull, DropColumnNotNull, CreateIndex, CreateIndexConcurrently, DropIndex,
    AddConstraint, DropConstraint, AddForeignKey, AddPrimaryKey, CreateView,
    DropView, AlterView, CreateFunction, DropFunction, AlterFunction,
    AttachPartition, DetachPartition, UnknownOperation
  ]

  /** The first operation stored under `name`. */
  function FirstNamed(all: seq<DatabaseOperation>, name: string): Option<DatabaseOperation> {
    if all == [] then None
    else if OperationName(all[0]) == name then Some(all[0])
    else FirstNamed(all[1..], name)
  }

  function ParseOperation(name: string): Option<DatabaseOperation> {
    FirstNamed(OPERATIONS, name)
  }

  function ResourceTypeName(x: ResourceType): string {
    match x
    case Database => "database"
    case Schema => "schema"
    case Table => "table"
    case Column => "column"
    case Index => "index"
    case View => "view"
    case Constraint => "constraint"
    case Application => "application"
    case Service => "service"
    case ApiEndpoint => "api_endpoint"
    case DataPipeline => "data_pipeline"
    case ReplicationTarget => "replication_target"
  }

  function ParseResourceType(name: string): Option<ResourceType> {
    if name == "database" then Some(ResourceType.Database)
    else if name == "schema" then Some(ResourceType.Schema)
    else if name == "table" then Some(ResourceType.Table)
    else if name == "column" then Some(ResourceType.Column)
    else if name == "index" then Some(ResourceType.Index)
    else if name == "view" then Some(ResourceType.View)
    else if name == "constraint" then Some(ResourceType.Constraint)
    else if name == "application" then Some(ResourceType.Application)
    else if name == "service" then Some(ResourceType.Service)
    else if name == "api_endpoint" then Some(ResourceType.ApiEndpoint)
    else if name == "data_pipeline" then Some(ResourceType.DataPipeline)
    else if name == "replication_target" then Some(ResourceType.ReplicationTarget)
    else None
  }

  function ProvenanceName(x: Provenance): string {
    match x
    case DatabaseMetadata => "database_metadata"
    case ApplicationCode => "application_code"
    case QueryLog => "query_log"
    case Tracing => "tracing"
    case Manual => "manual"
    case Configuration => "configuration"
    case Inferred => "inferred"
  }

  function ParseProvenance(name: string): Option<Provenance> {
    if name == "database_metadata" then Some(Provenance.DatabaseMetadata)
    else if name == "application_code" then Some(Provenance.ApplicationCode)
    else if name == "query_log" then Some(Provenance.QueryLog)
    else if name == "tracing" then Some(Provenance.Tracing)
    else if name == "manual" then Some(Provenance.Manual)
    else if name == "configuration" then Some(Provenance.Configuration)
    else if name == "inferred" then Some(Provenance.Inferred)
    else None
  }

  function ChangeTypeName(x: ChangeType): string {
    match x
    case Database => "database"
    case Application => "application"
    case Api => "api"
    case Infrastructure => "infrastructure"
    case Configuration => "configuration"
    case Security => "security"
    case DataPipeline => "data_pipeline"
    case InfrastructureAsCode => "infrastructure_as_code"
    case Kubernetes => "kubernetes"
    case CloudResource => "cloud_resource"
  }

  function ParseChangeType(name: string): Option<ChangeType> {
    if name == "database" then Some(ChangeType.Database)
    else if name == "application" then Some(ChangeType.Application)
    else if name == "api" then Some(ChangeType.Api)
    else if name == "infrastructure" then Some(ChangeType.Infrastructure)
    else if name == "configuration" then Some(ChangeType.Configuration)
    else if name == "security" then Some(ChangeType.Security)
    else if name == "data_pipeline" then Some(ChangeType.DataPipeline)
    else if name == "infrastructure_as_code" then Some(ChangeType.InfrastructureAsCode)
    else if name == "kubernetes" then Some(ChangeType.Kubernetes)
    else if name == "cloud_resource" then Some(ChangeType.CloudResource)
    else None
  }

  function ChangeSourceName(x: ChangeSource): string {
    match x
    case Cli => "cli"
    case Api => "api"
    case WebUi => "web_ui"
    case GitDiff => "git_diff"
    case PullRequest => "pull_request"
    case Manual => "manual"
  }

  function ParseChangeSource(name: string): Option<ChangeSource> {
    if name == "cli" then Some(ChangeSource.Cli)
    else if name == "api" then Some(ChangeSource.Api)
    else if name == "web_ui" then Some(ChangeSource.WebUi)
    else if name == "git_diff" then Some(ChangeSource.GitDiff)
    else if name == "pull_request" then Some(ChangeSource.PullRequest)
    else if name == "manual" then Some(ChangeSource.Manual)
    else None
  }

  function PriorityName(x: Priority): string {
    match x
    case Required => "required"
    case Recommended => "recommended"
    case Optional => "optional"
  }

  function ParsePriority(name: string): Option<Priority> {
    if name == "required" then Some(Priority.Required)
    else if name == "recommended" then Some(Priority.Recommended)
    else if name == "optional" then Some(Priority.Optional)
    else None
  }

  function ImpactName(x: Impact): string {
    match x
    case Direct => "direct"
    case Downstream => "downstream"
    case Upstream => "upstream"
  }

  function ParseImpact(name: string): Option<Impact> {
    if name == "direct" then Some(Impact.Direct)
    else if name == "downstream" then Some(Impact.Downstream)
    else if name == "upstream" then Some(Impact.Upstream)
    else None
  }

  function CriticalityName(x: Criticality): string {
    match x
    case Critical => "critical"
    case Standard => "standard"
    case Unknown => "unknown"
  }

  function ParseCriticality(name: string): Option<Criticality> {
    if name == "critical" then Some(Criticality.Critical)
    else if name == "standard" then Some(Criticality.Standard)
    else if name == "unknown" then Some(Criticality.Unknown)
    else None
  }

  function FactorName(x: FactorType): string {
    match x
    case LockRisk => "lock_risk"
    case BackwardCompatibility => "backward_compatibility"
    case CriticalDependencies => "criticality"
    case DependencyCount => "dependency_count"
    case ProductionUsage => "production_usage"
    case TableSize => "table_size"
    case DataVolume => "data_volume"
    case IndexImpact => "index_impact"
    case QueryImpact => "query_impact"
    case ReplicationImpact => "replication_impact"
    case RollbackDifficulty => "rollback_difficulty"
    case ChangeComplexity => "change_complexity"
    case HistoricalIncidents => "historical_incidents"
    case DeploymentFrequency => "deployment_frequency"
    case RecentChangeActivity => "recent_change_activity"
    case Observability => "observability"
    case TestCoverage => "test_coverage"
  }

  function LevelName(x: RiskLevel): string {
    match x
    case Low => "low"
    case Medium => "medium"
    case High => "high"
    case Critical => "critical"
  }

  predicate OnTable(x: DatabaseOperation) {
    || x.CreateTable? || x.AlterTable? || x.DropTable? || x.RenameTable? || x.AddColumn? || x.DropColumn?
  }

  predicate OnColumn(x: DatabaseOperation) {
    || x.AlterColumnType? || x.RenameColumn? || x.SetColumnDefault? || x.DropColumnDefault? || x.SetColumnNotNull?
    || x.DropColumnNotNull?
  }

  predicate OnIndex(x: DatabaseOperation) {
    x.CreateIndex? || x.CreateIndexConcurrently? || x.DropIndex?
  }

  predicate OnConstraint(x: DatabaseOperation) {
    x.AddConstraint? || x.DropConstraint? || x.AddForeignKey? || x.AddPrimaryKey?
  }

  lemma TableNamesDiffer(x: DatabaseOperation, y: DatabaseOperation)
    requires OnTable(x) && OperationName(x) == OperationName(y)
    ensures x == y
  {
  }

  lemma ColumnNamesDiffer(x: DatabaseOperation, y: DatabaseOperation)
    requires OnColumn(x) && OperationName(x) == OperationName(y)
    ensures x == y
  {
  }

  lemma IndexNamesDiffer(x: DatabaseOperation, y: DatabaseOperation)
    requires OnIndex(x) && OperationName(x) == OperationName(y)
    ensures x == y
  {
  }

  lemma ConstraintNamesDiffer(x: DatabaseOperation, y: DatabaseOperation)
    requires OnConstraint(x) && OperationName(x) == OperationName(y)
    ensures x == y
  {
  }

  lemma OtherNamesDiffer(x: DatabaseOperation, y: DatabaseOperation)
    requires !OnTable(x) && !OnColumn(x) && !OnIndex(x) && !OnConstraint(x)
    requires !OnTable(y) && !OnColumn(y) && !OnIndex(y) && !OnConstraint(y)
    requires OperationName(x) == OperationName(y)
    ensures x == y
  {
  }

  /** No two operations share a name. */
  lemma OperationNamesDiffer(x: DatabaseOperation, y: DatabaseOperation)
    requires OperationName(x) == OperationName(y)
    ensures x == y
  {
    hide OperationName;
    if OnTable(x) {
      TableNamesDiffer(x, y);
    } else if OnTable(y) {
      TableNamesDiffer(y, x);
    } else if OnColumn(x) {
      ColumnNamesDiffer(x, y);
    } else if OnColumn(y) {
      ColumnNamesDiffer(y, x);
    } else if OnIndex(x) {
      IndexNamesDiffer(x, y);
    } else if OnIndex(y) {
      IndexNamesDiffer(y, x);
    } else if OnConstraint(x) {
      ConstraintNamesDiffer(x, y);
    } else if OnConstraint(y) {
      ConstraintNamesDiffer(y, x);
    } else {
      OtherNamesDiffer(x, y);
    }
  }

  lemma {:induction false} OperationFound(all: seq<DatabaseOperation>, x: DatabaseOperation)
    requires x in all
    ensures FirstNamed(all, OperationName(x)) == Some(x)
  {
    hide OperationName;
    if OperationName(all[0]) == OperationName(x) {
      OperationNamesDiffer(all[0], x);
    } else {
      OperationFound(all[1..], x);
    }
  }

  /** Reading back the stored name of an enumeration value gives the value. */
  lemma OperationNamed(x: DatabaseOperation)
    ensures ParseOperation(OperationName(x)) == Some(x)
  {
    hide OperationName, FirstNamed;
    OperationFound(OPERATIONS, x);
  }

  lemma ResourceTypeNamed(x: ResourceType)
    ensures ParseResourceType(ResourceTypeName(x)) == Some(x)
  {
  }

  lemma ProvenanceNamed(x: Provenance)
    ensures ParseProvenance(ProvenanceName(x)) == Some(x)
  {
  }

  lemma ChangeTypeNamed(x: ChangeType)
    ensures ParseChangeType(ChangeTypeName(x)) == Some(x)
  {
  }

  lemma ChangeSourceNamed(x: ChangeSource)
    ensures ParseChangeSource(ChangeSourceName(x)) == Some(x)
  {
  }

  predicate FromGraph(x: FactorType) {
    || x.BackwardCompatibility? || x.CriticalDependencies? || x.DependencyCount? || x.ProductionUsage?
    || x.LockRisk? || x.ReplicationImpact?
  }

  predicate FromTables(x: FactorType) {
    x.TableSize? || x.DataVolume? || x.IndexImpact? || x.QueryImpact? || x.RollbackDifficulty? || x.ChangeComplexity?
  }

  lemma GraphFactorNamed(x: FactorType)
    requires FromGraph(x)
    ensures ParseFactor(FactorName(x)) == Some(x) && FactorName(x) != ""
  {
  }

  lemma TableFactorNamed(x: FactorType)
    requires FromTables(x)
    ensures ParseFactor(FactorName(x)) == Some(x) && FactorName(x) != ""
  {
  }

  lemma OtherFactorNamed(x: FactorType)
    requires !FromGraph(x) && !FromTables(x)
    ensures ParseFactor(FactorName(x)) == Some(x) && FactorName(x) != ""
  {
  }

  lemma FactorNamed(x: FactorType)
    ensures ParseFactor(FactorName(x)) == Some(x) && FactorName(x) != ""
  {
    hide ParseFactor, FactorName;
    if FromGraph(x) {
      GraphFactorNamed(x);
    } else if FromTables(x) {
      TableFactorNamed(x);
    } else {
      OtherFactorNamed(x);
    }
  }

  /** The names of factors a policy file may use. */
  lemma KnownFactorNames(name: string)
    ensures ParseFactor(name).Some? <==>
              name in ["lock_risk", "backward_compatibility", "criticality", "dependency_count", "production_usage",
                       "table_size", "data_volume", "index_impact", "query_impact", "replication_impact",
                       "rollback_difficulty", "change_complexity", "historical_incidents", "deployment_frequency",
                       "recent_change_activity", "observability", "test_coverage"]
  {
  }

}
