/** The change under assessment and the structured operations analyzers extract from it. */
module Changes {
  import opened Prelude

  datatype DatabaseOperation =
    | CreateTable | AlterTable | DropTable | RenameTable
    | AddColumn | DropColumn | AlterColumnType | RenameColumn
    | SetColumnDefault | DropColumnDefault | SetColumnNotNull | DropColumnNotNull
    | CreateIndex | CreateIndexConcurrently | DropIndex
    | AddConstraint | DropConstraint | AddForeignKey | AddPrimaryKey
    | CreateView | DropView | AlterView
    | CreateFunction | DropFunction | AlterFunction
    | AttachPartition | DetachPartition
    | UnknownOperation

  datatype DatabaseChange = DatabaseChange(
    kind: string,
    operation: DatabaseOperation,
    database: Option<string>,
    schema: string,
    table: Option<string>,
    column: Option<string>,
    index: Option<string>,
    constraint: Option<string>,
    dataType: Option<string>,
    oldState: Option<map<string, Value>>,
    proposedState: Option<map<string, Value>>,
    rawSql: string)
  {
    /** An absent table and an empty table name both count as no table. */
    predicate HasTable() {
      table.Some? && table.value != ""
    }

    function QualifiedTable(): Option<string> {
      if HasTable() then Some(schema + "." + table.value) else None
    }
  }

  datatype ChangeOperation =
    | Plain(kind: string)
    | Database(change: DatabaseChange)

  function DatabaseOperations(operations: seq<ChangeOperation>): seq<DatabaseChange> {
    if operations == [] then
      []
    else
      var n := |operations| - 1;
      DatabaseOperations(operations[..n]) + (if operations[n].Database? then [operations[n].change] else [])
  }

  lemma {:induction false} DatabaseOperationsAppend(a: seq<ChangeOperation>, b: seq<ChangeOperation>)
    ensures DatabaseOperations(a + b) == DatabaseOperations(a) + DatabaseOperations(b)
  {
    if b == [] {
      assert a + b == a;
    } else {
      var n := |b| - 1;
      assert (a + b)[..|a| + n] == a + b[..n];
      DatabaseOperationsAppend(a, b[..n]);
    }
  }

  function LowerChar(c: char): char {
    if 'A' <= c <= 'Z' then (c as int + 32) as char else c
  }

  function Lower(s: string): string {
    if s == "" then "" else [LowerChar(s[0])] + Lower(s[1..])
  }

  /** The environment names that count as production, in any letter case. */
  predicate IsProductionEnvironment(environment: string) {
    Lower(environment) == "prod" || Lower(environment) == "production"
  }

  datatype TableMetadata = TableMetadata(name: string, rowEstimate: Option<int>, sizeBytes: Option<int>)

  datatype QueryStatistics = QueryStatistics(available: bool, seqScans: Option<int>, indexScans: Option<int>)
}
