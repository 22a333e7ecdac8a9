/** How each factor moves when operations are appended to a change. */
module RiskGrowth {
  import opened Prelude
  import opened Changes
  import opened Dependencies
  import opened BlastRadii
  import opened RiskFactors

  /** `b` assesses the operations of `a` and more, with the same evidence at hand. */
  ghost predicate Appends(b: FactorContext, a: FactorContext) {
    && a.operations <= b.operations
    && b.environment == a.environment
    && b.targetDatabase == a.targetDatabase
    && b.tables == a.tables
    && b.queryStats == a.queryStats
    && b.incidents == a.incidents
    && (a.blast.Some? ==> b.blast.Some? && Covers(b.blast.value, a.blast.value))
  }

  lemma AnyInGrows(a: seq<DatabaseChange>, b: seq<DatabaseChange>, kinds: set<DatabaseOperation>)
    requires a <= b && AnyIn(a, kinds)
    ensures AnyIn(b, kinds)
  {
    var i :| 0 <= i < |a| && a[i].operation in kinds;
    assert b[i] == a[i];
  }

  lemma LockGrows(a: seq<DatabaseChange>, b: seq<DatabaseChange>)
    requires a <= b
    ensures LockScore(a) <= LockScore(b)
  {
    if a != [] {
      var i :| 0 <= i < |a| && LockScore(a) == LockBase(a[i].operation);
      assert b[i] == a[i];
    } else if b != [] {
      assert LockBase(b[0].operation) <= LockScore(b);
    }
  }

  lemma CompatibilityGrows(a: seq<DatabaseChange>, b: seq<DatabaseChange>)
    requires a <= b
    ensures CompatibilityScore(a) <= CompatibilityScore(b)
  {
    if AnyIn(a, BREAKING_HARD) {
      AnyInGrows(a, b, BREAKING_HARD);
    }
    if AnyIn(a, BREAKING_SOFT) {
      AnyInGrows(a, b, BREAKING_SOFT);
    }
  }

  lemma {:induction false} TargetsAppend(a: seq<DatabaseChange>, more: seq<DatabaseChange>, tables: map<string, TableMetadata>)
    ensures TargetTables(a + more, tables) == TargetTables(a, tables) + TargetTables(more, tables)
  {
    if more == [] {
      assert a + more == a;
    } else {
      var n := |more| - 1;
      assert (a + more)[..|a| + n] == a + more[..n];
      TargetsAppend(a, more[..n], tables);
    }
  }

  lemma TargetsGrow(a: seq<DatabaseChange>, b: seq<DatabaseChange>, tables: map<string, TableMetadata>)
    requires a <= b
    ensures TargetTables(a, tables) <= TargetTables(b, tables)
  {
    assert b == a + b[|a|..];
    TargetsAppend(a, b[|a|..], tables);
  }

  lemma LargestGrows(ts: seq<TableMetadata>, us: seq<TableMetadata>, key: TableMetadata -> int)
    requires ts != [] && ts <= us
    ensures Largest(ts, key) <= Largest(us, key)
  {
    var i :| 0 <= i < |ts| && key(ts[i]) == Largest(ts, key);
    assert us[i] == ts[i];
  }

  lemma SizeGrows(ts: seq<TableMetadata>, us: seq<TableMetadata>)
    requires ts <= us && ts != []
    ensures SizeScore(ts) <= SizeScore(us)
  {
    LargestGrows(ts, us, SizeOf);
  }

  lemma VolumeGrows(ts: seq<TableMetadata>, us: seq<TableMetadata>)
    requires ts <= us && ts != []
    ensures VolumeScore(ts) <= VolumeScore(us)
  {
    LargestGrows(ts, us, RowsOf);
  }

  lemma IndexGrows(a: seq<DatabaseChange>, b: seq<DatabaseChange>, ts: seq<TableMetadata>, us: seq<TableMetadata>)
    requires a <= b && ts <= us
    ensures IndexScore(a, ts) <= IndexScore(b, us)
  {
    if AnyIn(a, {CreateIndex}) {
      AnyInGrows(a, b, {CreateIndex});
    }
    if AnyIn(a, {DropIndex}) {
      AnyInGrows(a, b, {DropIndex});
    }
    if AnyIn(a, {CreateIndexConcurrently}) {
      AnyInGrows(a, b, {CreateIndexConcurrently});
    }
    if AnyLarge(ts) {
      var i :| 0 <= i < |ts| && SizeOf(ts[i]) >= 100 * GIB;
      assert us[i] == ts[i];
    }
  }

  lemma QueryGrows(a: seq<DatabaseChange>, b: seq<DatabaseChange>, stats: map<string, QueryStatistics>)
    requires a <= b
    ensures QueryScore(a, stats) <= QueryScore(b, stats)
  {
    if AnyIn(a, REWRITES) {
      AnyInGrows(a, b, REWRITES);
    }
    if AnyScanHeavy(a, stats) {
      var i :| 0 <= i < |a| && ScanHeavy(a[i], stats);
      assert b[i] == a[i];
    }
  }

  lemma ComplexityGrows(a: seq<DatabaseChange>, b: seq<DatabaseChange>)
    requires a <= b
    ensures ComplexityScore(a) <= ComplexityScore(b)
  {
    forall k | k in Kinds(a) ensures k in Kinds(b) {
      var i :| 0 <= i < |a| && a[i].operation == k;
      assert b[i] == a[i];
    }
    SubsetSize(Kinds(a), Kinds(b));
    if AnyIn(a, {UnknownOperation}) {
      AnyInGrows(a, b, {UnknownOperation});
    }
  }

  lemma {:induction false} IncidentsGrow(a: seq<DatabaseChange>, more: seq<DatabaseChange>, database: Option<string>,
                                         incidents: map<string, seq<string>>)
    ensures IncidentCount(a, database, incidents) <= IncidentCount(a + more, database, incidents)
  {
    if more == [] {
      assert a + more == a;
    } else {
      var n := |more| - 1;
      assert (a + more)[..|a| + n] == a + more[..n];
      IncidentsGrow(a, more[..n], database, incidents);
    }
  }

  /** A non-empty change stays at least as hard to roll back. */
  lemma RollbackGrows(a: seq<DatabaseChange>, b: seq<DatabaseChange>)
    requires a <= b && a != []
    ensures RollbackScore(a) <= RollbackScore(b)
  {
    if AnyIn(a, HARD_TO_ROLL_BACK) {
      AnyInGrows(a, b, HARD_TO_ROLL_BACK);
    }
    if AllIn(b, EASY_TO_ROLL_BACK) {
      assert forall i :: 0 <= i < |a| ==> a[i] == b[i];
    }
  }

  lemma {:induction false} ReplicationTargetsGrow(a: seq<AffectedResource>, b: seq<AffectedResource>)
    requires a <= b
    ensures ReplicationTargets(a) <= ReplicationTargets(b)
    decreases |b|
  {
    if |a| < |b| {
      ReplicationTargetsGrow(a, b[..|b| - 1]);
    } else {
      assert a == b;
    }
  }

  lemma BlastScoresGrow(a: FactorContext, b: FactorContext)
    requires Appends(b, a)
    ensures CriticalityScore(a.blast) <= CriticalityScore(b.blast)
    ensures DependencyScore(a.blast) <= DependencyScore(b.blast)
    ensures ProductionScore(a.environment, a.blast) <= ProductionScore(b.environment, b.blast)
    ensures ReplicationScore(a.blast) <= ReplicationScore(b.blast)
  {
    if a.blast.Some? {
      var x, y := a.blast.value, b.blast.value;
      SubsetSize(x.critical, y.critical);
      SubsetSize(x.pipelines, y.pipelines);
      ReplicationTargetsGrow(x.downstream, y.downstream);
      PrefixMembers(x.downstream, y.downstream);
    }
  }

  // ---------------------------------------------------------------------------
  // Exactly when appending is safe
  // ---------------------------------------------------------------------------

  /** The rollback score falls only when an empty change receives nothing but easily reversed operations. */
  predicate RollbackSafe(a: seq<DatabaseChange>, b: seq<DatabaseChange>) {
    a != [] || b == [] || !AllIn(b, EASY_TO_ROLL_BACK)
  }

  /** Unknown size scores 20; it falls to 10 only when the first collected tables are all below 1 GiB. */
  predicate SizeSafe(ts: seq<TableMetadata>, us: seq<TableMetadata>) {
    ts != [] || us == [] || exists i :: 0 <= i < |us| && SizeOf(us[i]) >= GIB
  }

  predicate VolumeSafe(ts: seq<TableMetadata>, us: seq<TableMetadata>) {
    ts != [] || us == [] || exists i :: 0 <= i < |us| && RowsOf(us[i]) >= 100_000
  }

  lemma RollbackExact(a: seq<DatabaseChange>, b: seq<DatabaseChange>)
    requires a <= b
    ensures RollbackScore(a) <= RollbackScore(b) <==> RollbackSafe(a, b)
  {
    if a != [] {
      RollbackGrows(a, b);
    } else if b != [] && AllIn(b, EASY_TO_ROLL_BACK) {
      assert HARD_TO_ROLL_BACK !! EASY_TO_ROLL_BACK;
      assert !AnyIn(b, HARD_TO_ROLL_BACK);
    }
  }

  lemma SizeExact(ts: seq<TableMetadata>, us: seq<TableMetadata>)
    requires ts <= us
    ensures SizeScore(ts) <= SizeScore(us) <==> SizeSafe(ts, us)
  {
    if ts != [] {
      SizeGrows(ts, us);
    } else if us != [] {
      var s := Largest(us, SizeOf);
      assert SizeBand(s) >= 20 <==> s >= GIB;
    }
  }

  lemma VolumeExact(ts: seq<TableMetadata>, us: seq<TableMetadata>)
    requires ts <= us
    ensures VolumeScore(ts) <= VolumeScore(us) <==> VolumeSafe(ts, us)
  {
    if ts != [] {
      VolumeGrows(ts, us);
    } else if us != [] {
      var r := Largest(us, RowsOf);
      assert RowBand(r) >= 20 <==> r >= 100_000;
    }
  }

  /**
   * A caller can check this before appending: the change already has an operation and a table with collected
   * metadata, or what is appended makes up for the cautious scores given in their absence.
   */
  predicate SafeToAppend(a: seq<DatabaseChange>, b: seq<DatabaseChange>, tables: map<string, TableMetadata>) {
    && RollbackSafe(a, b)
    && SizeSafe(TargetTables(a, tables), TargetTables(b, tables))
    && VolumeSafe(TargetTables(a, tables), TargetTables(b, tables))
  }

  /** Apart from rollback difficulty, table size and data volume, no factor ever falls. */
  lemma OtherFactorsGrow(a: FactorContext, b: FactorContext, t: FactorType)
    requires Appends(b, a)
    requires t != RollbackDifficulty && t != TableSize && t != DataVolume
    ensures Score(a, t) <= Score(b, t)
  {
    var p, q := a.operations, b.operations;
    match t {
      case LockRisk => LockGrows(p, q);
      case BackwardCompatibility => CompatibilityGrows(p, q);
      case CriticalDependencies => BlastScoresGrow(a, b);
      case DependencyCount => BlastScoresGrow(a, b);
      case ProductionUsage => BlastScoresGrow(a, b);
      case ReplicationImpact => BlastScoresGrow(a, b);
      case IndexImpact =>
        TargetsGrow(p, q, a.tables);
        IndexGrows(p, q, TargetTables(p, a.tables), TargetTables(q, a.tables));
      case QueryImpact => QueryGrows(p, q, a.queryStats);
      case ChangeComplexity => ComplexityGrows(p, q);
      case HistoricalIncidents =>
        assert q == p + q[|p|..];
        IncidentsGrow(p, q[|p|..], a.targetDatabase, a.incidents);
      case _ =>
    }
  }

  /** The condition under which factor `t` does not fall. */
  predicate FactorSafe(a: seq<DatabaseChange>, b: seq<DatabaseChange>, tables: map<string, TableMetadata>, t: FactorType) {
    && (t == RollbackDifficulty ==> RollbackSafe(a, b))
    && (t == TableSize ==> SizeSafe(TargetTables(a, tables), TargetTables(b, tables)))
    && (t == DataVolume ==> VolumeSafe(TargetTables(a, tables), TargetTables(b, tables)))
  }

  lemma FactorExact(a: FactorContext, b: FactorContext, t: FactorType)
    requires Appends(b, a)
    ensures Score(a, t) <= Score(b, t) <==> FactorSafe(a.operations, b.operations, a.tables, t)
  {
    TargetsGrow(a.operations, b.operations, a.tables);
    var ts, us := TargetTables(a.operations, a.tables), TargetTables(b.operations, a.tables);
    if t == RollbackDifficulty {
      RollbackExact(a.operations, b.operations);
    } else if t == TableSize {
      SizeExact(ts, us);
    } else if t == DataVolume {
      VolumeExact(ts, us);
    } else {
      OtherFactorsGrow(a, b, t);
    }
  }

  /** The append is safe exactly when it is safe for every factor. */
  lemma SafeForEachFactor(a: seq<DatabaseChange>, b: seq<DatabaseChange>, tables: map<string, TableMetadata>)
    ensures SafeToAppend(a, b, tables) <==> forall t :: FactorSafe(a, b, tables, t)
  {
    if forall t :: FactorSafe(a, b, tables, t) {
      assert FactorSafe(a, b, tables, RollbackDifficulty);
      assert FactorSafe(a, b, tables, TableSize);
      assert FactorSafe(a, b, tables, DataVolume);
    }
  }
}
