/** What makes each factor score what it scores, told by the operations, tables and affected resources themselves. */
module FactorCauses {
  import opened Prelude
  import opened Reals
  import opened Changes
  import opened Dependencies
  import opened BlastRadii
  import opened ImpactLists
  import opened RiskFactors
  import opened RiskGrowth
  import opened RiskEngine

  /** Some operation of the change is of one of these kinds. */
  ghost predicate AnyOf(ops: seq<DatabaseChange>, kinds: set<DatabaseOperation>) {
    exists op :: op in ops && op.operation in kinds
  }

  lemma AnyOfIs(ops: seq<DatabaseChange>, kinds: set<DatabaseOperation>)
    ensures AnyOf(ops, kinds) <==> AnyIn(ops, kinds)
    ensures AllIn(ops, kinds) <==> forall op :: op in ops ==> op.operation in kinds
  {
  }

  // ---------------------------------------------------------------------------
  // Factors that go by the kinds of operations
  // ---------------------------------------------------------------------------

  /** The lock level of a kind of operation, from rewriting a table under an exclusive lock down to none. */
  predicate Locks(kind: DatabaseOperation, level: int) {
    || (level == 85 && kind in {AlterColumnType})
    || (level == 70 && kind in {CreateIndex})
    || (level == 65 && kind in {AddPrimaryKey})
    || (level == 60 && kind in {AddConstraint, AddForeignKey})
    || (level == 55 && kind in {SetColumnNotNull})
    || (level == 50 && kind in {UnknownOperation, DropTable, AlterTable})
    || (level == 45 && kind in {AttachPartition, DetachPartition})
    || (level == 40 && kind in {DropIndex})
    || (level == 35 && kind in {DropColumn})
    || (level == 20 && kind in {AddColumn, CreateIndexConcurrently, DropConstraint})
    || (level == 15 && kind in {RenameColumn, RenameTable, DropColumnNotNull})
    || (level == 10 && kind in {CreateTable, SetColumnDefault, DropColumnDefault, CreateView, DropView, AlterView})
    || (level == 5 && kind in {CreateFunction, DropFunction, AlterFunction})
  }

  lemma LocksExactly(kind: DatabaseOperation, level: int)
    ensures Locks(kind, level) <==> level == LockBase(kind)
  {
  }

  /** The lock risk is the highest level among the operations; without operations it is 0. */
  lemma LockCauses(ctx: FactorContext)
    ensures var ops, score := ctx.operations, Score(ctx, LockRisk);
            && (ops == [] ==> score == 0)
            && (ops != [] ==> exists op :: op in ops && Locks(op.operation, score))
            && forall op, level :: op in ops && Locks(op.operation, level) ==> level <= score
  {
    hide Locks, LockBase;
    forall kind, level ensures Locks(kind, level) <==> level == LockBase(kind) {
      LocksExactly(kind, level);
    }
    if ctx.operations != [] {
      var i :| 0 <= i < |ctx.operations| && LockBase(ctx.operations[i].operation) == Score(ctx, LockRisk);
      assert ctx.operations[i] in ctx.operations;
    }
  }

  /** Removing or renaming what is in use scores 90, narrowing it 55, adding to it 15. */
  lemma CompatibilityCauses(ctx: FactorContext)
    ensures var ops, score := ctx.operations, Score(ctx, BackwardCompatibility);
            var hard := AnyOf(ops, {DropTable, DropColumn, AlterColumnType, RenameColumn, RenameTable, DropView, DropFunction});
            var soft := AnyOf(ops, {SetColumnNotNull, DropConstraint, DropIndex, DetachPartition});
            && (score == 90 <==> hard)
            && (score == 55 <==> !hard && soft)
            && (score == 15 <==> !hard && !soft)
  {
    AnyOfIs(ctx.operations, {DropTable, DropColumn, AlterColumnType, RenameColumn, RenameTable, DropView, DropFunction});
    AnyOfIs(ctx.operations, {SetColumnNotNull, DropConstraint, DropIndex, DetachPartition});
  }

  /** Destroying something scores 80, and only a change made of additions that a reverse undoes scores 15. */
  lemma RollbackCauses(ctx: FactorContext)
    ensures var ops, score := ctx.operations, Score(ctx, RollbackDifficulty);
            var hard := AnyOf(ops, {DropTable, DropColumn, AlterColumnType, DropConstraint, DropIndex});
            var easy := ops != [] && forall op :: op in ops ==>
                          op.operation in {AddColumn, CreateTable, CreateIndex, CreateIndexConcurrently, CreateView,
                                           CreateFunction, SetColumnDefault, DropColumnDefault, DropColumnNotNull};
            && (score == 80 <==> hard)
            && (score == 15 <==> easy)
            && (score == 40 <==> !hard && !easy)
  {
    var ops := ctx.operations;
    AnyOfIs(ops, {DropTable, DropColumn, AlterColumnType, DropConstraint, DropIndex});
    AnyOfIs(ops, {AddColumn, CreateTable, CreateIndex, CreateIndexConcurrently, CreateView, CreateFunction,
                 SetColumnDefault, DropColumnDefault, DropColumnNotNull});
    assert HARD_TO_ROLL_BACK !! EASY_TO_ROLL_BACK;
    if ops != [] {
      assert ops[0] in ops;
    }
  }

  /** Ten, eight for each operation, six for each kind, and 25 for an unclassified statement, up to 95. */
  lemma ComplexityCauses(ctx: FactorContext)
    ensures var ops, score := ctx.operations, Score(ctx, ChangeComplexity);
            var kinds := set op | op in ops :: op.operation;
            var raw := 10 + 8 * |ops| + 6 * |kinds| + (if UnknownOperation in kinds then 25 else 0);
            (raw <= 95 ==> score == raw) && (raw > 95 ==> score == 95)
  {
    var ops := ctx.operations;
    var kinds := set op | op in ops :: op.operation;
    forall kind ensures kind in kinds <==> kind in Kinds(ops) {
      if kind in kinds {
        var op :| op in ops && op.operation == kind;
        var i :| 0 <= i < |ops| && ops[i] == op;
      }
    }
    assert kinds == Kinds(ops);
    AnyOfIs(ops, {UnknownOperation});
  }

  // ---------------------------------------------------------------------------
  // Factors that go by the tables
  // ---------------------------------------------------------------------------

  /** An operation names this table, and there is collected metadata for it. */
  ghost predicate Collected(ctx: FactorContext, full: string) {
    && full in ctx.tables
    && exists op, name :: op in ctx.operations && op.table == Some(name) && name != "" && full == op.schema + "." + name
  }

  /** Some such table has at least this many bytes; an unknown size counts as none. */
  ghost predicate HasBytes(ctx: FactorContext, bytes: int) {
    exists full :: Collected(ctx, full) && ctx.tables[full].sizeBytes.Some? && ctx.tables[full].sizeBytes.value >= bytes
  }

  ghost predicate HasRows(ctx: FactorContext, rows: int) {
    exists full :: Collected(ctx, full) && ctx.tables[full].rowEstimate.Some? && ctx.tables[full].rowEstimate.value >= rows
  }

  lemma {:induction false} TargetsAre(ops: seq<DatabaseChange>, tables: map<string, TableMetadata>, t: TableMetadata)
    ensures t in TargetTables(ops, tables) <==>
            exists op, name :: op in ops && op.table == Some(name) && name != ""
                               && op.schema + "." + name in tables && tables[op.schema + "." + name] == t
  {
    if ops != [] {
      var n := |ops| - 1;
      TargetsAre(ops[..n], tables, t);
      assert ops == ops[..n] + [ops[n]];
    }
  }

  lemma TargetIsCollected(ctx: FactorContext, t: TableMetadata)
    ensures t in TargetTables(ctx.operations, ctx.tables) <==> exists full :: Collected(ctx, full) && ctx.tables[full] == t
  {
    TargetsAre(ctx.operations, ctx.tables, t);
    if t in TargetTables(ctx.operations, ctx.tables) {
      var op, name :| op in ctx.operations && op.table == Some(name) && name != ""
                   && op.schema + "." + name in ctx.tables && ctx.tables[op.schema + "." + name] == t;
      assert Collected(ctx, op.schema + "." + name);
    }
  }

  lemma NoTargets(ctx: FactorContext)
    ensures TargetTables(ctx.operations, ctx.tables) == [] <==> forall full :: !Collected(ctx, full)
  {
    hide Collected, TargetTables;
    var ts := TargetTables(ctx.operations, ctx.tables);
    if ts != [] {
      assert ts[0] in ts;
      TargetIsCollected(ctx, ts[0]);
    }
    if full :| Collected(ctx, full) {
      assert full in ctx.tables by {
        CollectedThere(ctx, full);
      }
      TargetIsCollected(ctx, ctx.tables[full]);
    }
  }

  lemma CollectedThere(ctx: FactorContext, full: string)
    requires Collected(ctx, full)
    ensures full in ctx.tables
  {
  }

  lemma LargestReaches(ctx: FactorContext, bytes: int, rows: int)
    requires bytes > 0 && rows > 0 && TargetTables(ctx.operations, ctx.tables) != []
    ensures var ts := TargetTables(ctx.operations, ctx.tables);
            && (Largest(ts, SizeOf) >= bytes <==> HasBytes(ctx, bytes))
            && (Largest(ts, RowsOf) >= rows <==> HasRows(ctx, rows))
  {
    hide Collected, TargetTables, Largest;
    var ts := TargetTables(ctx.operations, ctx.tables);
    forall i | 0 <= i < |ts|
      ensures exists full :: full in ctx.tables && Collected(ctx, full) && ctx.tables[full] == ts[i]
    {
      assert ts[i] in ts;
      forall full | Collected(ctx, full) ensures full in ctx.tables {
        CollectedThere(ctx, full);
      }
      TargetIsCollected(ctx, ts[i]);
    }
    forall full | Collected(ctx, full) ensures full in ctx.tables && ctx.tables[full] in ts {
      CollectedThere(ctx, full);
      TargetIsCollected(ctx, ctx.tables[full]);
    }
  }

  /** Without metadata the size counts 20; else the largest table decides, at 1, 10, 100 and 500 GiB. */
  lemma SizeCauses(ctx: FactorContext)
    ensures var score := Score(ctx, TableSize);
            && ((forall full :: !Collected(ctx, full)) ==> score == 20)
            && ((exists full :: Collected(ctx, full)) ==>
                  && score in {10, 30, 55, 75, 95}
                  && (score >= 30 <==> HasBytes(ctx, 1_073_741_824))
                  && (score >= 55 <==> HasBytes(ctx, 10_737_418_240))
                  && (score >= 75 <==> HasBytes(ctx, 107_374_182_400))
                  && (score >= 95 <==> HasBytes(ctx, 536_870_912_000)))
  {
    hide Collected, TargetTables, Largest, HasBytes, HasRows;
    NoTargets(ctx);
    if TargetTables(ctx.operations, ctx.tables) != [] {
      LargestReaches(ctx, 1_073_741_824, 1);
      LargestReaches(ctx, 10_737_418_240, 1);
      LargestReaches(ctx, 107_374_182_400, 1);
      LargestReaches(ctx, 536_870_912_000, 1);
    }
  }

  /** Likewise the rows, at a hundred thousand, one, ten and fifty million. */
  lemma VolumeCauses(ctx: FactorContext)
    ensures var score := Score(ctx, DataVolume);
            && ((forall full :: !Collected(ctx, full)) ==> score == 20)
            && ((exists full :: Collected(ctx, full)) ==>
                  && score in {10, 25, 45, 65, 85}
                  && (score >= 25 <==> HasRows(ctx, 100_000))
                  && (score >= 45 <==> HasRows(ctx, 1_000_000))
                  && (score >= 65 <==> HasRows(ctx, 10_000_000))
                  && (score >= 85 <==> HasRows(ctx, 50_000_000)))
  {
    hide Collected, TargetTables, Largest, HasBytes, HasRows;
    NoTargets(ctx);
    if TargetTables(ctx.operations, ctx.tables) != [] {
      LargestReaches(ctx, 1, 100_000);
      LargestReaches(ctx, 1, 1_000_000);
      LargestReaches(ctx, 1, 10_000_000);
      LargestReaches(ctx, 1, 50_000_000);
    }
  }

  lemma LargeIs(ctx: FactorContext)
    ensures AnyLarge(TargetTables(ctx.operations, ctx.tables)) <==> HasBytes(ctx, 107_374_182_400)
  {
    hide Collected, TargetTables, Largest, HasBytes, HasRows;
    var ts := TargetTables(ctx.operations, ctx.tables);
    NoTargets(ctx);
    if ts != [] {
      LargestReaches(ctx, 107_374_182_400, 1);
      if AnyLarge(ts) {
        var i :| 0 <= i < |ts| && SizeOf(ts[i]) >= 100 * GIB;
        assert SizeOf(ts[i]) <= Largest(ts, SizeOf);
      }
    } else {
      NoBytes(ctx);
    }
  }

  lemma NoBytes(ctx: FactorContext)
    requires forall full :: !Collected(ctx, full)
    ensures !HasBytes(ctx, 107_374_182_400)
  {
  }

  /** Building an index with writes blocked scores 70, and 90 if a named table has 100 GiB or more. */
  lemma IndexCauses(ctx: FactorContext)
    ensures var ops, score := ctx.operations, Score(ctx, IndexImpact);
            && (score == 90 <==> AnyOf(ops, {CreateIndex}) && HasBytes(ctx, 107_374_182_400))
            && (score == 70 <==> AnyOf(ops, {CreateIndex}) && !HasBytes(ctx, 107_374_182_400))
            && (score == 40 <==> !AnyOf(ops, {CreateIndex}) && AnyOf(ops, {DropIndex}))
            && (score == 20 <==> !AnyOf(ops, {CreateIndex, DropIndex}) && AnyOf(ops, {CreateIndexConcurrently}))
            && (score == 5 <==> !AnyOf(ops, {CreateIndex, DropIndex, CreateIndexConcurrently}))
  {
    hide HasBytes, AnyLarge, TargetTables;
    var ops := ctx.operations;
    LargeIs(ctx);
    AnyOfIs(ops, {CreateIndex});
    AnyOfIs(ops, {DropIndex});
    AnyOfIs(ops, {CreateIndexConcurrently});
  }

  /** The statistics of the table of some operation show more than 1000 sequential scans, and more than index scans. */
  ghost predicate Scanned(ctx: FactorContext) {
    exists op, full ::
      && op in ctx.operations
      && full == (if op.table.Some? && op.table.value != "" then op.schema + "." + op.table.value else "")
      && full in ctx.queryStats && ctx.queryStats[full].available
      && ctx.queryStats[full].seqScans.Some? && ctx.queryStats[full].seqScans.value > 1000
      && (ctx.queryStats[full].indexScans.Some? ==>
            ctx.queryStats[full].seqScans.value > ctx.queryStats[full].indexScans.value)
  }

  /** Reading existing rows scores 55 instead of 15, and a table that is scanned already adds 25. */
  lemma QueryCauses(ctx: FactorContext)
    ensures var ops, score := ctx.operations, Score(ctx, QueryImpact);
            var rewrites := AnyOf(ops, {AlterColumnType, SetColumnNotNull, AddPrimaryKey, AddForeignKey, AddConstraint});
            && (score == 80 <==> rewrites && Scanned(ctx))
            && (score == 55 <==> rewrites && !Scanned(ctx))
            && (score == 40 <==> !rewrites && Scanned(ctx))
            && (score == 15 <==> !rewrites && !Scanned(ctx))
  {
    var ops := ctx.operations;
    AnyOfIs(ops, {AlterColumnType, SetColumnNotNull, AddPrimaryKey, AddForeignKey, AddConstraint});
    if Scanned(ctx) {
      var op :| op in ops && ScanHeavy(op, ctx.queryStats);
      var i :| 0 <= i < |ops| && ops[i] == op;
      assert ScanHeavy(ops[i], ctx.queryStats);
    }
    if AnyScanHeavy(ops, ctx.queryStats) {
      var i :| 0 <= i < |ops| && ScanHeavy(ops[i], ctx.queryStats);
      assert ops[i] in ops;
    }
  }

  // ---------------------------------------------------------------------------
  // Incidents
  // ---------------------------------------------------------------------------

  /** The incidents on record for the table an operation names, in the database of the change. */
  ghost predicate OnRecord(ctx: FactorContext, op: DatabaseChange, count: nat) {
    var database := if ctx.targetDatabase.Some? && ctx.targetDatabase.value != "" then ctx.targetDatabase.value else "unknown";
    if op.table.Some? && op.table.value != "" && database + "." + op.schema + "." + op.table.value in ctx.incidents then
      count == |ctx.incidents[database + "." + op.schema + "." + op.table.value]|
    else
      count == 0
  }

  function Total(counts: seq<nat>): nat {
    if counts == [] then 0 else Total(counts[..|counts| - 1]) + counts[|counts| - 1]
  }

  lemma {:induction false} IncidentsAre(ctx: FactorContext, ops: seq<DatabaseChange>, counts: seq<nat>)
    requires |counts| == |ops| && forall i :: 0 <= i < |ops| ==> OnRecord(ctx, ops[i], counts[i])
    ensures IncidentCount(ops, ctx.targetDatabase, ctx.incidents) == Total(counts)
  {
    if ops != [] {
      var n := |ops| - 1;
      forall i | 0 <= i < n ensures OnRecord(ctx, ops[..n][i], counts[..n][i]) {
        assert OnRecord(ctx, ops[i], counts[i]);
      }
      IncidentsAre(ctx, ops[..n], counts[..n]);
      assert OnRecord(ctx, ops[n], counts[n]);
    }
  }

  /** No incident scores 15, the first 65, each further one ten more, up to 95; each operation brings its own. */
  lemma IncidentCauses(ctx: FactorContext, counts: seq<nat>)
    requires |counts| == |ctx.operations|
    requires forall i :: 0 <= i < |counts| ==> OnRecord(ctx, ctx.operations[i], counts[i])
    ensures var found, score := Total(counts), Score(ctx, HistoricalIncidents);
            && (found == 0 ==> score == 15)
            && (1 <= found <= 4 ==> score == 55 + 10 * found)
            && (found > 4 ==> score == 95)
  {
    hide OnRecord;
    IncidentsAre(ctx, ctx.operations, counts);
  }

  // ---------------------------------------------------------------------------
  // Factors that go by the blast radius
  // ---------------------------------------------------------------------------

  lemma {:induction false} ThreeOf<T>(s: set<T>)
    ensures |s| >= 1 <==> s != {}
    ensures |s| >= 3 <==> exists a, b, c :: a in s && b in s && c in s && a != b && b != c && a != c
  {
    if a, b, c :| a in s && b in s && c in s && a != b && b != c && a != c {
      SubsetSize({a, b, c}, s);
    }
    if |s| >= 3 {
      var a :| a in s;
      assert |s - {a}| >= 2;
      var b :| b in s - {a};
      assert |s - {a} - {b}| >= 1;
      var c :| c in s - {a} - {b};
    }
  }

  /** Downstream lies something of this name that is marked critical. */
  ghost predicate CriticalBelow(b: BlastRadius, name: string) {
    exists r :: r in b.downstream && MarkedCritical(r.resource) && r.resource.name == name
  }

  /** Nothing critical downstream scores 10, one or two names 55, three or more 85. */
  lemma CriticalityCauses(ctx: FactorContext, g: Network, ids: seq<string>, k: int)
    requires g.WellFormed() && ctx.blast == Some(BlastOf(g, ids, k))
    ensures var b, score := ctx.blast.value, Score(ctx, CriticalDependencies);
            var three := exists x, y, z :: CriticalBelow(b, x) && CriticalBelow(b, y) && CriticalBelow(b, z)
                                           && x != y && y != z && x != z;
            && (score == 10 <==> forall name :: !CriticalBelow(b, name))
            && (score == 85 <==> three)
            && (score == 55 <==> (exists name :: CriticalBelow(b, name)) && !three)
  {
    hide BlastOf, CriticalBelow;
    var b := ctx.blast.value;
    forall name ensures CriticalBelow(b, name) <==> name in b.critical {
      RollupsAre(g, ids, k, name);
      CriticalBelowIs(b, name);
    }
    ThreeOf(b.critical);
  }

  lemma CriticalBelowIs(b: BlastRadius, name: string)
    ensures CriticalBelow(b, name) <==>
            exists r :: r in b.downstream && MarkedCritical(r.resource) && r.resource.name == name
  {
  }

  /** What is hit directly and downstream counts: up to 1, 4, 9, or more. */
  lemma DependencyCauses(ctx: FactorContext)
    ensures var score := Score(ctx, DependencyCount);
            var count := if ctx.blast.Some? then |ctx.blast.value.direct + ctx.blast.value.downstream| else 0;
            && (score == 10 <==> count <= 1)
            && (score == 35 <==> 2 <= count <= 4)
            && (score == 60 <==> 5 <= count <= 9)
            && (score == 85 <==> 10 <= count)
  {
  }

  /** The same text up to the case of letters; `small` is in small letters. */
  predicate Spells(text: string, small: string) {
    |text| == |small|
    && forall i :: 0 <= i < |text| ==>
         text[i] == small[i] || ('A' <= text[i] <= 'Z' && text[i] as int + 32 == small[i] as int)
  }

  lemma {:induction false} LowerSpells(text: string, small: string)
    requires forall i :: 0 <= i < |small| ==> 'a' <= small[i] <= 'z'
    ensures Lower(text) == small <==> Spells(text, small)
  {
    if text != "" && small != "" {
      LowerSpells(text[1..], small[1..]);
      assert small == [small[0]] + small[1..];
      assert Lower(text)[0] == LowerChar(text[0]) && Lower(text)[1..] == Lower(text[1..]);
      assert Spells(text, small) <==> LowerChar(text[0]) == small[0] && Spells(text[1..], small[1..]) by {
        SpellsFirst(text, small);
      }
    }
  }

  lemma SpellsFirst(text: string, small: string)
    requires text != "" && small != "" && 'a' <= small[0] <= 'z'
    ensures Spells(text, small) <==> LowerChar(text[0]) == small[0] && Spells(text[1..], small[1..])
  {
    if Spells(text[1..], small[1..]) {
      forall i | 1 <= i < |text|
        ensures text[i] == small[i] || ('A' <= text[i] <= 'Z' && text[i] as int + 32 == small[i] as int)
      {
        assert text[1..][i - 1] == text[i] && small[1..][i - 1] == small[i];
      }
    }
  }

  ghost predicate InProduction(environment: string) {
    Spells(environment, "prod") || Spells(environment, "production")
  }

  lemma ProductionIs(environment: string)
    ensures IsProductionEnvironment(environment) <==> InProduction(environment)
  {
    hide Spells;
    LowerSpells(environment, "prod");
    LowerSpells(environment, "production");
  }

  /** Outside production the score is 10; in production it is 85 if something in production lies downstream, else 50. */
  lemma ProductionCauses(ctx: FactorContext)
    ensures var score := Score(ctx, ProductionUsage);
            var below := ctx.blast.Some? && exists r :: r in ctx.blast.value.downstream && r.production;
            && (score == 10 <==> !InProduction(ctx.environment))
            && (score == 85 <==> InProduction(ctx.environment) && below)
            && (score == 50 <==> InProduction(ctx.environment) && !below)
  {
    ProductionIs(ctx.environment);
  }

  /** The last edge to it is one of replication. */
  ghost predicate ReplicatedBy(r: AffectedResource) {
    r.via != [] && exists rest :: r.via[|r.via| - 1].relationship == "replication:" + rest
  }

  lemma ReplicatedIs(r: AffectedResource)
    ensures ReplicatedBy(r) <==> IsReplicationPath(r)
  {
    if IsReplicationPath(r) {
      var text := r.via[|r.via| - 1].relationship;
      assert text == "replication:" + text[|"replication:"|..];
    }
  }

  ghost function Replicas(list: seq<AffectedResource>): set<int> {
    set i | 0 <= i < |list| && ReplicatedBy(list[i])
  }

  lemma ReplicasNext(list: seq<AffectedResource>, r: AffectedResource)
    ensures Replicas(list + [r]) == Replicas(list) + (if IsReplicationPath(r) then {|list|} else {})
    ensures |list| !in Replicas(list)
  {
    hide ReplicatedBy, IsReplicationPath;
    var more := list + [r];
    ReplicatedIs(r);
    forall i ensures i in Replicas(more) <==> i in Replicas(list) || (i == |list| && IsReplicationPath(r)) {
      assert 0 <= i < |list| ==> more[i] == list[i];
      assert more[|list|] == r;
    }
  }

  lemma {:induction false} ReplicasCount(list: seq<AffectedResource>)
    ensures ReplicationTargets(list) == |Replicas(list)|
  {
    hide Replicas, IsReplicationPath;
    if list == [] {
      NoReplicas();
    } else {
      var n := |list| - 1;
      ReplicasCount(list[..n]);
      assert list == list[..n] + [list[n]];
      ReplicasNext(list[..n], list[n]);
    }
  }

  lemma NoReplicas()
    ensures Replicas([]) == {}
  {
  }

  /** Replicas downstream and names of pipelines count together: none, one, more. */
  lemma ReplicationCauses(ctx: FactorContext)
    ensures var score := Score(ctx, ReplicationImpact);
            && (ctx.blast.None? ==> score == 10)
            && (ctx.blast.Some? ==>
                  var b := ctx.blast.value;
                  var count := |Replicas(b.downstream)| + |b.pipelines|;
                  && (score == 10 <==> count == 0)
                  && (score == 45 <==> count == 1)
                  && (score == 75 <==> count >= 2))
  {
    if ctx.blast.Some? {
      ReplicasCount(ctx.blast.value.downstream);
    }
  }

  // ---------------------------------------------------------------------------
  // The factors of an assessment
  // ---------------------------------------------------------------------------

  const ASSESSED: set<FactorType> :=
    {LockRisk, BackwardCompatibility, CriticalDependencies, DependencyCount, ProductionUsage, TableSize, DataVolume,
     IndexImpact, QueryImpact, ReplicationImpact, RollbackDifficulty, ChangeComplexity, HistoricalIncidents}

  /** A factor with its score, weight and label: critical from 75, high from 50, medium from 25 on. */
  ghost predicate Reported(ctx: FactorContext, weights: map<FactorType, real>, f: WeightedScore) {
    && f.factor in weights && weights[f.factor] > 0.0 && f.weight == weights[f.factor]
    && f.score == Score(ctx, f.factor) as real
    && (f.severity == CriticalSeverity <==> f.score >= 75.0)
    && (f.severity == HighSeverity <==> 50.0 <= f.score < 75.0)
    && (f.severity == MediumSeverity <==> 25.0 <= f.score < 50.0)
    && (f.severity == LowSeverity <==> f.score < 25.0)
  }

  lemma FactorMade(ctx: FactorContext, weights: map<FactorType, real>, t: FactorType, f: WeightedScore)
    requires t in weights && weights[t] > 0.0
    ensures f == MakeFactor(t, Score(ctx, t), weights[t]) <==> f.factor == t && Reported(ctx, weights, f)
  {
    hide Score, Round2;
    RoundInteger(Score(ctx, t));
  }

  lemma {:induction false} FactorsAmong(ctx: FactorContext, weights: map<FactorType, real>, types: seq<FactorType>,
                                        f: WeightedScore)
    ensures f in Factors(ctx, weights, types) <==> f.factor in types && Reported(ctx, weights, f)
  {
    hide Score, MakeFactor;
    if types != [] {
      var n := |types| - 1;
      FactorsAmong(ctx, weights, types[..n], f);
      assert types == types[..n] + [types[n]];
      if WeightOf(weights, types[n]) > 0.0 {
        FactorMade(ctx, weights, types[n], f);
      }
    }
  }

  /** No factor is reported twice. */
  ghost predicate OneEach(factors: seq<WeightedScore>) {
    forall i, j :: 0 <= i < j < |factors| ==> factors[i].factor != factors[j].factor
  }

  lemma {:induction false} OneEachAmong(ctx: FactorContext, weights: map<FactorType, real>, types: seq<FactorType>)
    requires NoDup(types)
    ensures OneEach(Factors(ctx, weights, types))
  {
    hide Score, MakeFactor, Reported;
    if types != [] {
      var n := |types| - 1;
      var most := Factors(ctx, weights, types[..n]);
      OneEachAmong(ctx, weights, types[..n]);
      forall i | 0 <= i < |most| ensures most[i].factor != types[n] {
        assert most[i] in most;
        FactorsAmong(ctx, weights, types[..n], most[i]);
      }
      MadeFor(types[n], Score(ctx, types[n]), WeightOf(weights, types[n]));
    }
  }

  lemma MadeFor(t: FactorType, score: int, weight: real)
    ensures MakeFactor(t, score, weight).factor == t
  {
  }

  /** An assessment reports the thirteen factors that have a weight, each once, and nothing else. */
  lemma FactorsAre(ctx: FactorContext, weights: map<FactorType, real>, f: WeightedScore)
    ensures f in Factors(ctx, weights, COMPUTED) <==> f.factor in ASSESSED && Reported(ctx, weights, f)
    ensures OneEach(Factors(ctx, weights, COMPUTED))
  {
    hide Reported, Factors, OneEach;
    FactorsAmong(ctx, weights, COMPUTED, f);
    OneEachAmong(ctx, weights, COMPUTED);
    assert forall t :: t in COMPUTED <==> t in ASSESSED;
  }

  // ---------------------------------------------------------------------------
  // Confidence and notes
  // ---------------------------------------------------------------------------

  ghost function Unclassified(ops: seq<DatabaseChange>): set<int> {
    set i | 0 <= i < |ops| && ops[i].operation == UnknownOperation
  }

  lemma UnclassifiedNext(ops: seq<DatabaseChange>, op: DatabaseChange)
    ensures Unclassified(ops + [op]) == Unclassified(ops) + (if op.operation == UnknownOperation then {|ops|} else {})
    ensures |ops| !in Unclassified(ops)
  {
    var more := ops + [op];
    forall i ensures i in Unclassified(more) <==>
                     i in Unclassified(ops) || (i == |ops| && op.operation == UnknownOperation)
    {
      assert 0 <= i < |ops| ==> more[i] == ops[i];
      assert more[|ops|] == op;
    }
  }

  lemma NoneUnclassified()
    ensures Unclassified([]) == {}
  {
  }

  lemma {:induction false} UnclassifiedCount(ops: seq<DatabaseChange>)
    ensures UnknownCount(ops) == |Unclassified(ops)|
  {
    hide Unclassified;
    if ops == [] {
      NoneUnclassified();
    } else {
      var n := |ops| - 1;
      UnclassifiedCount(ops[..n]);
      assert ops == ops[..n] + [ops[n]];
      UnclassifiedNext(ops[..n], ops[n]);
    }
  }

  /** An operation names this table, and no metadata was collected for it. */
  ghost predicate Uncollected(ctx: FactorContext, full: string) {
    && full !in ctx.tables
    && exists op, name :: op in ctx.operations && op.table == Some(name) && name != "" && full == op.schema + "." + name
  }

  lemma UncollectedAre(ctx: FactorContext, full: string)
    ensures full in MissingTables(ctx) <==> Uncollected(ctx, full)
  {
    if Uncollected(ctx, full) {
      var op, name :| op in ctx.operations && op.table == Some(name) && name != "" && full == op.schema + "." + name;
      var i :| 0 <= i < |ctx.operations| && ctx.operations[i] == op;
      assert ctx.operations[i].QualifiedTable() == Some(full);
    }
  }

  /** What unclassified statements leave of the confidence. */
  function Understood(unclassified: nat): real {
    match unclassified
    case 0 => 1.0
    case 1 => 0.85
    case 2 => 0.7
    case 3 => 0.55
    case _ => 0.4
  }

  /** The confidence of the blast radius, or half without one, less what is unclassified or has no metadata. */
  lemma ConfidenceCauses(ctx: FactorContext)
    requires ctx.blast.Some? ==> 0.0 <= ctx.blast.value.confidence <= 1.0
    ensures var known := if exists full :: Uncollected(ctx, full) then 0.85 else 1.0;
            var reach := if ctx.blast.Some? then ctx.blast.value.confidence else 0.5;
            Confidence(ctx) == Round4(Understood(|Unclassified(ctx.operations)|) * known * reach)
  {
    hide Round4, Uncollected, MissingTables, UnknownCount, Unclassified;
    var n, missing := UnknownCount(ctx.operations), MissingTables(ctx);
    UnclassifiedCount(ctx.operations);
    forall full ensures full in missing <==> Uncollected(ctx, full) {
      UncollectedAre(ctx, full);
    }
    var known := if exists full :: Uncollected(ctx, full) then 0.85 else 1.0;
    var reach := if ctx.blast.Some? then ctx.blast.value.confidence else 0.5;
    assert UnknownPenalty(n) == Understood(n);
    assert MissingPenalty(missing) == known;
    UnitProduct(Understood(n), known, reach);
  }

  lemma UnitProduct(a: real, b: real, c: real)
    requires 0.0 <= a <= 1.0 && 0.0 <= b <= 1.0 && 0.0 <= c <= 1.0
    ensures Unit(Times(Times(a, b), c)) == a * b * c
  {
    ScaleDown(0.0, 0.0, a, b);
    ScaleDown(a, b, 1.0, 1.0);
    ScaleDown(0.0, 0.0, a * b, c);
    ScaleDown(a * b, c, 1.0, 1.0);
  }

  /** Each note and what it is there for. */
  lemma NotesAre(ctx: FactorContext, p: Policy, note: Uncertainty)
    ensures note in Notes(ctx, p) <==>
            match note
            case Unclassified(count) => count > 0 && count == |Unclassified(ctx.operations)|
            case NoMetadata(tables) => tables != {} && forall full :: full in tables <==> Uncollected(ctx, full)
            case LowGraphConfidence(c) => ctx.blast.Some? && c == ctx.blast.value.confidence && c < p.minConfidence
            case NoGraph => ctx.blast.None?
            case NotAssessed(t) => t in p.unimplemented
  {
    hide Uncollected, MissingTables, UnknownCount, Unclassified;
    UnclassifiedCount(ctx.operations);
    forall full ensures full in MissingTables(ctx) <==> Uncollected(ctx, full) {
      UncollectedAre(ctx, full);
    }
    if note.NoMetadata? && forall full :: full in note.tables <==> Uncollected(ctx, full) {
      assert note.tables == MissingTables(ctx);
    }
    NotAssessedAre(p.unimplemented, note);
  }

  lemma NotAssessedAre(types: seq<FactorType>, note: Uncertainty)
    ensures note in NotAssessedNotes(types) <==> note.NotAssessed? && note.factor in types
  {
    var notes := NotAssessedNotes(types);
    assert forall i :: 0 <= i < |types| ==> notes[i] == NotAssessed(types[i]);
    if note.NotAssessed? && note.factor in types {
      var i :| 0 <= i < |types| && types[i] == note.factor;
      assert notes[i] == note;
    }
  }

  // ---------------------------------------------------------------------------
  // Production against anything else
  // ---------------------------------------------------------------------------

  /** The same change aimed at production: this one factor rises, and under no policy does the overall score fall. */
  lemma ProductionRaises(ctx: FactorContext, environment: string, weights: map<FactorType, real>)
    requires !InProduction(ctx.environment) && InProduction(environment)
    ensures var there := ctx.(environment := environment);
            && Score(ctx, ProductionUsage) < Score(there, ProductionUsage)
            && (forall t :: t != ProductionUsage ==> Score(there, t) == Score(ctx, t))
            && OverallScore(ctx, weights) <= OverallScore(there, weights)
  {
    hide OverallScore, InProduction;
    var there := ctx.(environment := environment);
    ProductionCauses(ctx);
    ProductionCauses(there);
    OverallGrows(ctx, there, weights);
  }
}
