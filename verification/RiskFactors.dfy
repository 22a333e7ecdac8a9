/** The thirteen banded risk factors. Reason and evidence texts are not modelled; scores and labels are. */
module RiskFactors {
  import opened Prelude
  import opened Reals
  import opened Changes
  import opened BlastRadii
  import opened Dependencies

  datatype FactorType =
    | LockRisk | BackwardCompatibility | CriticalDependencies | DependencyCount | ProductionUsage
    | TableSize | DataVolume | IndexImpact | QueryImpact | ReplicationImpact
    | RollbackDifficulty | ChangeComplexity | HistoricalIncidents
    | DeploymentFrequency | RecentChangeActivity | Observability | TestCoverage

  datatype FactorContext = FactorContext(
    environment: string,
    targetDatabase: Option<string>,
    operations: seq<DatabaseChange>,
    tables: map<string, TableMetadata>,
    blast: Option<BlastRadius>,
    queryStats: map<string, QueryStatistics>,
    incidents: map<string, seq<string>>)

  datatype Severity = LowSeverity | MediumSeverity | HighSeverity | CriticalSeverity

  datatype WeightedScore = WeightedScore(factor: FactorType, severity: Severity, score: real, weight: real) {
    function Contribution(): real {
      Product(score, weight)
    }
  }

  function Product(score: real, weight: real): real {
    Round4(Times(score, weight))
  }

  function SeverityFor(score: real): Severity {
    if score >= 75.0 then CriticalSeverity
    else if score >= 50.0 then HighSeverity
    else if score >= 25.0 then MediumSeverity
    else LowSeverity
  }

  function Clamp(score: real): real {
    if score < 0.0 then 0.0 else if score > 100.0 then 100.0 else score
  }

  function MakeFactor(factor: FactorType, score: int, weight: real): WeightedScore {
    WeightedScore(factor, SeverityFor(score as real), Round2(Clamp(score as real)), weight)
  }

  const GIB: int := 0x4000_0000

  // ---------------------------------------------------------------------------
  // Knowledge tables
  // ---------------------------------------------------------------------------

  /** Lock level of each operation; an operation without an entry is scored like an unclassified one. */
  function LockBase(op: DatabaseOperation): int {
    match op
    case CreateTable => 10
    case AddColumn => 20
    case DropColumn => 35
    case AlterColumnType => 85
    case RenameColumn => 15
    case RenameTable => 15
    case SetColumnNotNull => 55
    case DropColumnNotNull => 15
    case SetColumnDefault => 10
    case DropColumnDefault => 10
    case CreateIndex => 70
    case CreateIndexConcurrently => 20
    case DropIndex => 40
    case AddConstraint => 60
    case AddForeignKey => 60
    case AddPrimaryKey => 65
    case DropConstraint => 20
    case CreateView => 10
    case DropView => 10
    case AlterView => 10
    case CreateFunction => 5
    case DropFunction => 5
    case AlterFunction => 5
    case AttachPartition => 45
    case DetachPartition => 45
    case UnknownOperation => 50
    case DropTable => 50
    case AlterTable => 50
  }

  const BREAKING_HARD: set<DatabaseOperation> :=
    {DropTable, DropColumn, AlterColumnType, RenameColumn, RenameTable, DropView, DropFunction}
  const BREAKING_SOFT: set<DatabaseOperation> :=
    {SetColumnNotNull, DropConstraint, DropIndex, DetachPartition}
  const HARD_TO_ROLL_BACK: set<DatabaseOperation> :=
    {DropTable, DropColumn, AlterColumnType, DropConstraint, DropIndex}
  const EASY_TO_ROLL_BACK: set<DatabaseOperation> :=
    {AddColumn, CreateTable, CreateIndex, CreateIndexConcurrently, CreateView, CreateFunction,
     SetColumnDefault, DropColumnDefault, DropColumnNotNull}
  const REWRITES: set<DatabaseOperation> :=
    {AlterColumnType, SetColumnNotNull, AddPrimaryKey, AddForeignKey, AddConstraint}

  /** Some operation of the change is in `kinds`. */
  predicate AnyIn(ops: seq<DatabaseChange>, kinds: set<DatabaseOperation>) {
    exists i :: 0 <= i < |ops| && ops[i].operation in kinds
  }

  predicate AllIn(ops: seq<DatabaseChange>, kinds: set<DatabaseOperation>) {
    forall i :: 0 <= i < |ops| ==> ops[i].operation in kinds
  }

  // ---------------------------------------------------------------------------
  // Scores
  // ---------------------------------------------------------------------------

  function LockScore(ops: seq<DatabaseChange>): (score: int)
    ensures ops == [] ==> score == 0
    ensures ops != [] ==> exists i :: 0 <= i < |ops| && score == LockBase(ops[i].operation)
    ensures forall i :: 0 <= i < |ops| ==> LockBase(ops[i].operation) <= score
  {
    if ops == [] then
      0
    else
      var n := |ops| - 1;
      var rest := LockScore(ops[..n]);
      var last := LockBase(ops[n].operation);
      assert forall i :: 0 <= i < n ==> ops[..n][i] == ops[i];
      if last > rest || n == 0 then last else rest
  }

  function CompatibilityScore(ops: seq<DatabaseChange>): int {
    if AnyIn(ops, BREAKING_HARD) then 90 else if AnyIn(ops, BREAKING_SOFT) then 55 else 15
  }

  function CriticalityScore(blast: Option<BlastRadius>): int {
    if blast.None? || blast.value.critical == {} then 10
    else if |blast.value.critical| <= 2 then 55
    else 85
  }

  function AffectedCount(blast: Option<BlastRadius>): nat {
    if blast.None? then 0 else |blast.value.direct| + |blast.value.downstream|
  }

  function DependencyScore(blast: Option<BlastRadius>): int {
    var count := AffectedCount(blast);
    if count <= 1 then 10 else if count <= 4 then 35 else if count <= 9 then 60 else 85
  }

  predicate AnyProduction(list: seq<AffectedResource>) {
    exists r :: r in list && r.production
  }

  function ProductionScore(environment: string, blast: Option<BlastRadius>): int {
    if !IsProductionEnvironment(environment) then 10
    else if blast.Some? && AnyProduction(blast.value.downstream) then 85
    else 50
  }

  /** The collected metadata of the tables the operations name, in order, with repeats. */
  function TargetTables(ops: seq<DatabaseChange>, tables: map<string, TableMetadata>): seq<TableMetadata> {
    if ops == [] then
      []
    else
      var n := |ops| - 1;
      var q := ops[n].QualifiedTable();
      TargetTables(ops[..n], tables) + (if q.Some? && q.value in tables then [tables[q.value]] else [])
  }

  function SizeOf(t: TableMetadata): int {
    t.sizeBytes.GetOr(0)
  }

  function RowsOf(t: TableMetadata): int {
    t.rowEstimate.GetOr(0)
  }

  /** The largest value of `key` over the tables. */
  function Largest(ts: seq<TableMetadata>, key: TableMetadata -> int): (m: int)
    requires ts != []
    ensures exists i :: 0 <= i < |ts| && key(ts[i]) == m
    ensures forall i :: 0 <= i < |ts| ==> key(ts[i]) <= m
  {
    var n := |ts| - 1;
    if n == 0 then
      key(ts[0])
    else
      var rest := Largest(ts[..n], key);
      assert forall i :: 0 <= i < n ==> ts[..n][i] == ts[i];
      if key(ts[n]) > rest then key(ts[n]) else rest
  }

  function SizeBand(size: int): int {
    if size < GIB then 10
    else if size < 10 * GIB then 30
    else if size < 100 * GIB then 55
    else if size < 500 * GIB then 75
    else 95
  }

  function RowBand(rows: int): int {
    if rows < 100_000 then 10
    else if rows < 1_000_000 then 25
    else if rows < 10_000_000 then 45
    else if rows < 50_000_000 then 65
    else 85
  }

  function SizeScore(ts: seq<TableMetadata>): int {
    if ts == [] then 20 else SizeBand(Largest(ts, SizeOf))
  }

  function VolumeScore(ts: seq<TableMetadata>): int {
    if ts == [] then 20 else RowBand(Largest(ts, RowsOf))
  }

  predicate AnyLarge(ts: seq<TableMetadata>) {
    exists i :: 0 <= i < |ts| && SizeOf(ts[i]) >= 100 * GIB
  }

  function IndexScore(ops: seq<DatabaseChange>, ts: seq<TableMetadata>): int {
    if AnyIn(ops, {CreateIndex}) then (if AnyLarge(ts) then 90 else 70)
    else if AnyIn(ops, {DropIndex}) then 40
    else if AnyIn(ops, {CreateIndexConcurrently}) then 20
    else 5
  }

  /** The statistics consulted for an operation without a table are those stored under the empty name. */
  predicate ScanHeavy(op: DatabaseChange, stats: map<string, QueryStatistics>) {
    var key := op.QualifiedTable().GetOr("");
    && key in stats
    && stats[key].available
    && stats[key].seqScans.GetOr(0) > stats[key].indexScans.GetOr(0)
    && stats[key].seqScans.GetOr(0) > 1000
  }

  predicate AnyScanHeavy(ops: seq<DatabaseChange>, stats: map<string, QueryStatistics>) {
    exists i :: 0 <= i < |ops| && ScanHeavy(ops[i], stats)
  }

  function QueryScore(ops: seq<DatabaseChange>, stats: map<string, QueryStatistics>): int {
    (if AnyIn(ops, REWRITES) then 55 else 15) + (if AnyScanHeavy(ops, stats) then 25 else 0)
  }

  predicate IsReplicationPath(r: AffectedResource) {
    r.via != [] && "replication:" <= r.via[|r.via| - 1].relationship
  }

  function ReplicationTargets(list: seq<AffectedResource>): nat {
    if list == [] then 0
    else ReplicationTargets(list[..|list| - 1]) + (if IsReplicationPath(list[|list| - 1]) then 1 else 0)
  }

  function ReplicationScore(blast: Option<BlastRadius>): int {
    if blast.None? then 10
    else
      var total := ReplicationTargets(blast.value.downstream) + |blast.value.pipelines|;
      if total == 0 then 10 else if total == 1 then 45 else 75
  }

  function RollbackScore(ops: seq<DatabaseChange>): int {
    if AnyIn(ops, HARD_TO_ROLL_BACK) then 80
    else if ops != [] && AllIn(ops, EASY_TO_ROLL_BACK) then 15
    else 40
  }

  function Kinds(ops: seq<DatabaseChange>): set<DatabaseOperation> {
    set i | 0 <= i < |ops| :: ops[i].operation
  }

  function ComplexityScore(ops: seq<DatabaseChange>): int {
    var raw := 10 + 8 * |ops| + 6 * |Kinds(ops)| + (if AnyIn(ops, {UnknownOperation}) then 25 else 0);
    if raw > 95 then 95 else raw
  }

  function IncidentKey(database: Option<string>, op: DatabaseChange): string
    requires op.HasTable()
  {
    DatabaseName(database) + "." + op.schema + "." + op.table.value
  }

  function DatabaseName(database: Option<string>): string {
    if database.Some? && database.value != "" then database.value else "unknown"
  }

  function IncidentCount(ops: seq<DatabaseChange>, database: Option<string>, incidents: map<string, seq<string>>): nat {
    if ops == [] then
      0
    else
      var op := ops[|ops| - 1];
      IncidentCount(ops[..|ops| - 1], database, incidents) +
      (if op.HasTable() && IncidentKey(database, op) in incidents then |incidents[IncidentKey(database, op)]| else 0)
  }

  function IncidentScore(found: nat): int {
    if found == 0 then 15 else if 65 + 10 * (found - 1) > 95 then 95 else 65 + 10 * (found - 1)
  }

  /** The score of one factor; the four factors without a data source have none. */
  function Score(ctx: FactorContext, t: FactorType): (score: int)
    ensures 0 <= score <= 95
  {
    match t
    case LockRisk => LockScore(ctx.operations)
    case BackwardCompatibility => CompatibilityScore(ctx.operations)
    case CriticalDependencies => CriticalityScore(ctx.blast)
    case DependencyCount => DependencyScore(ctx.blast)
    case ProductionUsage => ProductionScore(ctx.environment, ctx.blast)
    case TableSize => SizeScore(TargetTables(ctx.operations, ctx.tables))
    case DataVolume => VolumeScore(TargetTables(ctx.operations, ctx.tables))
    case IndexImpact => IndexScore(ctx.operations, TargetTables(ctx.operations, ctx.tables))
    case QueryImpact => QueryScore(ctx.operations, ctx.queryStats)
    case ReplicationImpact => ReplicationScore(ctx.blast)
    case RollbackDifficulty => RollbackScore(ctx.operations)
    case ChangeComplexity => ComplexityScore(ctx.operations)
    case HistoricalIncidents => IncidentScore(IncidentCount(ctx.operations, ctx.targetDatabase, ctx.incidents))
    case DeploymentFrequency => 0
    case RecentChangeActivity => 0
    case Observability => 0
    case TestCoverage => 0
  }

  // ---------------------------------------------------------------------------
  // The loops that compute them
  // ---------------------------------------------------------------------------

  method ComputeLockRisk(ops: seq<DatabaseChange>) returns (score: int)
    ensures score == LockScore(ops)
  {
    var worst := -1;
    for n := 0 to |ops|
      invariant worst == if n == 0 then -1 else LockScore(ops[..n])
    {
      assert ops[..n + 1][..n] == ops[..n];
      if LockBase(ops[n].operation) > worst {
        worst := LockBase(ops[n].operation);
      }
    }
    assert ops[..|ops|] == ops;
    score := if ops == [] then 0 else worst;
  }

  method ComputeTargetTables(ops: seq<DatabaseChange>, tables: map<string, TableMetadata>)
    returns (ts: seq<TableMetadata>)
    ensures ts == TargetTables(ops, tables)
  {
    ts := [];
    for n := 0 to |ops|
      invariant ts == TargetTables(ops[..n], tables)
    {
      assert ops[..n + 1][..n] == ops[..n];
      var q := ops[n].QualifiedTable();
      if q.Some? && q.value in tables {
        ts := ts + [tables[q.value]];
      }
    }
    assert ops[..|ops|] == ops;
  }

  const BYTE_THRESHOLDS: seq<(int, int)> := [(GIB, 10), (10 * GIB, 30), (100 * GIB, 55), (500 * GIB, 75)]
  const ROW_THRESHOLDS: seq<(int, int)> := [(100_000, 10), (1_000_000, 25), (10_000_000, 45), (50_000_000, 65)]

  /** The first band whose threshold exceeds the value, else the default. */
  method FirstBand(value: int, bands: seq<(int, int)>, default: int) returns (score: int)
    ensures (exists i :: 0 <= i < |bands| && value < bands[i].0 && score == bands[i].1
                      && forall j :: 0 <= j < i ==> value >= bands[j].0)
         || (score == default && forall j :: 0 <= j < |bands| ==> value >= bands[j].0)
  {
    score := default;
    for n := 0 to |bands|
      invariant score == default
      invariant forall j :: 0 <= j < n ==> value >= bands[j].0
    {
      if value < bands[n].0 {
        return bands[n].1;
      }
    }
  }

  method ComputeTableSize(ts: seq<TableMetadata>) returns (score: int)
    ensures score == SizeScore(ts)
  {
    if ts == [] {
      return 20;
    }
    score := FirstBand(Largest(ts, SizeOf), BYTE_THRESHOLDS, 95);
    assert BYTE_THRESHOLDS[0] == (GIB, 10) && BYTE_THRESHOLDS[1] == (10 * GIB, 30);
    assert BYTE_THRESHOLDS[2] == (100 * GIB, 55) && BYTE_THRESHOLDS[3] == (500 * GIB, 75);
  }

  method ComputeDataVolume(ts: seq<TableMetadata>) returns (score: int)
    ensures score == VolumeScore(ts)
  {
    if ts == [] {
      return 20;
    }
    score := FirstBand(Largest(ts, RowsOf), ROW_THRESHOLDS, 85);
    assert ROW_THRESHOLDS[0] == (100_000, 10) && ROW_THRESHOLDS[1] == (1_000_000, 25);
    assert ROW_THRESHOLDS[2] == (10_000_000, 45) && ROW_THRESHOLDS[3] == (50_000_000, 65);
  }

  method ComputeQueryImpact(ops: seq<DatabaseChange>, stats: map<string, QueryStatistics>) returns (score: int)
    ensures score == QueryScore(ops, stats)
  {
    var base := if AnyIn(ops, REWRITES) then 55 else 15;
    var bump := 0;
    for n := 0 to |ops|
      invariant bump == if exists i :: 0 <= i < n && ScanHeavy(ops[i], stats) then 25 else 0
    {
      if ScanHeavy(ops[n], stats) {
        bump := if bump > 25 then bump else 25;
      }
    }
    score := if base + bump > 95 then 95 else base + bump;
  }

  method ComputeHistoricalIncidents(ops: seq<DatabaseChange>, database: Option<string>,
                                    incidents: map<string, seq<string>>) returns (score: int)
    ensures score == IncidentScore(IncidentCount(ops, database, incidents))
  {
    var found: seq<string> := [];
    for n := 0 to |ops|
      invariant |found| == IncidentCount(ops[..n], database, incidents)
    {
      assert ops[..n + 1][..n] == ops[..n];
      if ops[n].HasTable() {
        var key := IncidentKey(database, ops[n]);
        found := found + (if key in incidents then incidents[key] else []);
      }
    }
    assert ops[..|ops|] == ops;
    if found == [] {
      return 15;
    }
    var raw := 65 + 10 * (|found| - 1);
    score := if raw > 95 then 95 else raw;
  }

  method ComputeScore(ctx: FactorContext, t: FactorType) returns (score: int)
    ensures score == Score(ctx, t)
  {
    match t {
      case LockRisk =>
        score := ComputeLockRisk(ctx.operations);
      case TableSize =>
        var ts := ComputeTargetTables(ctx.operations, ctx.tables);
        score := ComputeTableSize(ts);
      case DataVolume =>
        var ts := ComputeTargetTables(ctx.operations, ctx.tables);
        score := ComputeDataVolume(ts);
      case IndexImpact =>
        var ts := ComputeTargetTables(ctx.operations, ctx.tables);
        score := IndexScore(ctx.operations, ts);
      case QueryImpact =>
        score := ComputeQueryImpact(ctx.operations, ctx.queryStats);
      case HistoricalIncidents =>
        score := ComputeHistoricalIncidents(ctx.operations, ctx.targetDatabase, ctx.incidents);
      case _ =>
        score := Score(ctx, t);
    }
  }

  /** The factors that can be computed, in the order they are computed. */
  const COMPUTED: seq<FactorType> :=
    [LockRisk, BackwardCompatibility, CriticalDependencies, DependencyCount, ProductionUsage, TableSize, DataVolume,
     IndexImpact, QueryImpact, ReplicationImpact, RollbackDifficulty, ChangeComplexity, HistoricalIncidents]

  function WeightOf(weights: map<FactorType, real>, t: FactorType): real {
    if t in weights then weights[t] else 0.0
  }

  /** The factors of `types` with a positive weight, scored. */
  function Factors(ctx: FactorContext, weights: map<FactorType, real>, types: seq<FactorType>): seq<WeightedScore> {
    if types == [] then
      []
    else
      var n := |types| - 1;
      var w := WeightOf(weights, types[n]);
      Factors(ctx, weights, types[..n]) + (if w <= 0.0 then [] else [MakeFactor(types[n], Score(ctx, types[n]), w)])
  }

  method ComputeFactors(ctx: FactorContext, weights: map<FactorType, real>) returns (factors: seq<WeightedScore>)
    ensures factors == Factors(ctx, weights, COMPUTED)
  {
    factors := [];
    for n := 0 to |COMPUTED|
      invariant factors == Factors(ctx, weights, COMPUTED[..n])
    {
      assert COMPUTED[..n + 1][..n] == COMPUTED[..n];
      var w := WeightOf(weights, COMPUTED[n]);
      if w <= 0.0 {
        continue;
      }
      var score := ComputeScore(ctx, COMPUTED[n]);
      factors := factors + [MakeFactor(COMPUTED[n], score, w)];
    }
    assert COMPUTED[..|COMPUTED|] == COMPUTED;
  }
}
