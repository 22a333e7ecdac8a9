/** Storing changes and assessments as documents, and reading them back. */
module Serialization {
  import opened Prelude
  import opened Changes
  import opened Dependencies
  import opened BlastRadii
  import opened RiskFactors
  import opened RiskEngine
  import opened EnumNames

  // ---------------------------------------------------------------------------
  // Documents
  // ---------------------------------------------------------------------------

  /** `data.get(key)`. */
  function Field(v: Value, key: string): Value {
    if v.Dict? && key in v.fields then v.fields[key] else Null
  }

  predicate Has(v: Value, key: string) {
    v.Dict? && key in v.fields
  }

  /** `data.get(key, default)`. */
  function GetOr(v: Value, key: string, default: Value): Value {
    if Has(v, key) then Field(v, key) else default
  }

  function AsStr(v: Value): Option<string> {
    if v.Str? then Some(v.s) else None
  }

  function AsNum(v: Value): Option<real> {
    if v.Num? then Some(v.n) else None
  }

  function AsNat(v: Value): Option<nat> {
    if v.Num? && v.n >= 0.0 && v.n.Floor as real == v.n then Some(v.n.Floor) else None
  }

  function AsBool(v: Value): Option<bool> {
    if v.Bool? then Some(v.b) else None
  }

  function AsDict(v: Value): Option<map<string, Value>> {
    if v.Dict? then Some(v.fields) else None
  }

  function AsOptStr(v: Value): Option<Option<string>> {
    if v.Null? then Some(None) else if v.Str? then Some(Some(v.s)) else None
  }

  function OptDict(d: Option<map<string, Value>>): Value {
    if d.Some? then Dict(d.value) else Null
  }

  function AsOptDict(v: Value): Option<Option<map<string, Value>>> {
    if v.Null? then Some(None) else if v.Dict? then Some(Some(v.fields)) else None
  }

  /** Read every item, or fail. */
  function ReadAll<T>(read: Value -> Option<T>, items: seq<Value>): Option<seq<T>> {
    if items == [] then
      Some([])
    else
      var first :- read(items[0]);
      var rest :- ReadAll(read, items[1..]);
      Some([first] + rest)
  }

  function AsList<T>(read: Value -> Option<T>, v: Value): Option<seq<T>> {
    if v.List? then ReadAll(read, v.items) else None
  }

  /** A list is read back if each of its items is. */
  lemma {:induction false} ListRoundTrip<T>(write: T -> Value, read: Value -> Option<T>, xs: seq<T>)
    requires forall x :: x in xs ==> read(write(x)) == Some(x)
    ensures AsList(read, List(MapSeq(write, xs))) == Some(xs)
  {
    if xs != [] {
      ListRoundTrip(write, read, xs[1..]);
      assert MapSeq(write, xs)[1..] == MapSeq(write, xs[1..]);
      assert xs == [xs[0]] + xs[1..];
    }
  }

  lemma StrsRoundTrip(texts: seq<string>)
    ensures AsList(AsStr, Strs(texts)) == Some(texts)
  {
    ListRoundTrip((s: string) => Str(s), AsStr, texts);
  }

  // ---------------------------------------------------------------------------
  // Changes
  // ---------------------------------------------------------------------------

  function OperationTo(op: ChangeOperation): Value {
    match op
    case Database(c) =>
      Dict(map["kind" := Str("database"), "operation" := Str(OperationName(c.operation)),
               "database" := OptStr(c.database), "schema" := Str(c.schema), "table" := OptStr(c.table),
               "column" := OptStr(c.column), "index" := OptStr(c.index), "constraint" := OptStr(c.constraint),
               "data_type" := OptStr(c.dataType), "old_state" := OptDict(c.oldState),
               "proposed_state" := OptDict(c.proposedState), "raw_sql" := Str(c.rawSql)])
    case Plain(kind) => Dict(map["kind" := Str(kind)])
  }

  /** The kind alone decides what is read; an unnamed kind is "unknown", a missing schema "public". */
  function OperationFrom(v: Value): Option<ChangeOperation> {
    if Field(v, "kind") == Str("database") then
      var name :- AsStr(Field(v, "operation"));
      var operation :- ParseOperation(name);
      var database :- AsOptStr(Field(v, "database"));
      var schema :- AsStr(GetOr(v, "schema", Str("public")));
      var table :- AsOptStr(Field(v, "table"));
      var column :- AsOptStr(Field(v, "column"));
      var index :- AsOptStr(Field(v, "index"));
      var constraint :- AsOptStr(Field(v, "constraint"));
      var dataType :- AsOptStr(Field(v, "data_type"));
      var oldState :- AsOptDict(Field(v, "old_state"));
      var proposedState :- AsOptDict(Field(v, "proposed_state"));
      var rawSql :- AsStr(GetOr(v, "raw_sql", Str("")));
      Some(ChangeOperation.Database(DatabaseChange("database", operation, database, schema, table, column, index,
                                                   constraint, dataType, oldState, proposedState, rawSql)))
    else
      var kind :- AsStr(GetOr(v, "kind", Str("unknown")));
      Some(Plain(kind))
  }

  /** The kinds the program's own constructors produce. */
  predicate Storable(op: ChangeOperation) {
    match op
    case Database(c) => c.kind == "database"
    case Plain(kind) => kind != "database"
  }

  lemma OperationFields(c: DatabaseChange)
    ensures var v := OperationTo(ChangeOperation.Database(c));
            && Field(v, "kind") == Str("database") && Field(v, "operation") == Str(OperationName(c.operation))
            && Field(v, "database") == OptStr(c.database) && Field(v, "schema") == Str(c.schema) && Has(v, "schema")
            && Field(v, "table") == OptStr(c.table) && Field(v, "column") == OptStr(c.column)
            && Field(v, "index") == OptStr(c.index) && Field(v, "constraint") == OptStr(c.constraint)
            && Field(v, "data_type") == OptStr(c.dataType) && Field(v, "old_state") == OptDict(c.oldState)
            && Field(v, "proposed_state") == OptDict(c.proposedState)
            && Field(v, "raw_sql") == Str(c.rawSql) && Has(v, "raw_sql")
  {
    hide OperationName, OptStr, OptDict;
  }

  lemma PlainFields(kind: string)
    ensures Field(OperationTo(Plain(kind)), "kind") == Str(kind) && Has(OperationTo(Plain(kind)), "kind")
  {
  }

  lemma OptionsRead(s: Option<string>, d: Option<map<string, Value>>)
    ensures AsOptStr(OptStr(s)) == Some(s) && AsOptDict(OptDict(d)) == Some(d)
  {
  }

  /** An operation is read back exactly when database operations, and only they, are of kind "database". */
  lemma OperationRoundTrip(op: ChangeOperation)
    ensures OperationFrom(OperationTo(op)) == Some(op) <==> Storable(op)
  {
    hide ParseOperation, OperationName, OperationTo, Field, Has, OptStr, OptDict, AsOptStr, AsOptDict;
    match op
    case Database(c) =>
      OperationNamed(c.operation);
      OperationFields(c);
      forall s, d ensures AsOptStr(OptStr(s)) == Some(s) && AsOptDict(OptDict(d)) == Some(d) {
        OptionsRead(s, d);
      }
    case Plain(kind) =>
      PlainFields(kind);
  }

  datatype ChangeRecord = ChangeRecord(
    id: string, changeType: ChangeType, source: ChangeSource, title: string, description: string, submittedBy: string,
    submittedAt: string, environment: string, rawContent: string, targetDatabase: Option<string>,
    operations: seq<ChangeOperation>, metadata: map<string, Value>)

  function ChangeTo(c: ChangeRecord): Value {
    Dict(map["id" := Str(c.id), "change_type" := Str(ChangeTypeName(c.changeType)),
             "source" := Str(ChangeSourceName(c.source)), "title" := Str(c.title), "description" := Str(c.description),
             "submitted_by" := Str(c.submittedBy), "submitted_at" := Str(c.submittedAt),
             "environment" := Str(c.environment), "raw_content" := Str(c.rawContent),
             "target_database" := OptStr(c.targetDatabase), "operations" := List(MapSeq(OperationTo, c.operations)),
             "metadata" := Dict(c.metadata)])
  }

  function ChangeFrom(v: Value): Option<ChangeRecord> {
    var id :- AsStr(Field(v, "id"));
    var typeName :- AsStr(Field(v, "change_type"));
    var changeType :- ParseChangeType(typeName);
    var sourceName :- AsStr(Field(v, "source"));
    var source :- ParseChangeSource(sourceName);
    var title :- AsStr(Field(v, "title"));
    var description :- AsStr(GetOr(v, "description", Str("")));
    var submittedBy :- AsStr(Field(v, "submitted_by"));
    var submittedAt :- AsStr(Field(v, "submitted_at"));
    var environment :- AsStr(Field(v, "environment"));
    var rawContent :- AsStr(Field(v, "raw_content"));
    var targetDatabase :- AsOptStr(Field(v, "target_database"));
    var operations :- AsList(OperationFrom, GetOr(v, "operations", List([])));
    var metadata :- AsDict(GetOr(v, "metadata", Dict(map[])));
    Some(ChangeRecord(id, changeType, source, title, description, submittedBy, submittedAt, environment, rawContent,
                      targetDatabase, operations, metadata))
  }

  /** A list of operations is read back exactly when each of them is. */
  lemma {:induction false} OperationsRoundTrip(ops: seq<ChangeOperation>)
    ensures AsList(OperationFrom, List(MapSeq(OperationTo, ops))) == Some(ops) <==>
            forall op :: op in ops ==> Storable(op)
  {
    hide OperationTo, OperationFrom, Storable;
    if ops != [] {
      OperationRoundTrip(ops[0]);
      OperationsRoundTrip(ops[1..]);
      assert MapSeq(OperationTo, ops)[1..] == MapSeq(OperationTo, ops[1..]);
      assert ops == [ops[0]] + ops[1..];
      var r := AsList(OperationFrom, List(MapSeq(OperationTo, ops)));
      if r == Some(ops) {
        var rest := ReadAll(OperationFrom, MapSeq(OperationTo, ops)[1..]);
        assert r.value == [OperationFrom(OperationTo(ops[0])).value] + rest.value;
        assert r.value[0] == ops[0] && r.value[1..] == ops[1..];
      }
    }
  }

  lemma ChangeFields(c: ChangeRecord)
    ensures var v := ChangeTo(c);
            && Field(v, "id") == Str(c.id) && Field(v, "change_type") == Str(ChangeTypeName(c.changeType))
            && Field(v, "source") == Str(ChangeSourceName(c.source)) && Field(v, "title") == Str(c.title)
            && Field(v, "description") == Str(c.description) && Has(v, "description")
            && Field(v, "submitted_by") == Str(c.submittedBy)
            && Field(v, "submitted_at") == Str(c.submittedAt) && Field(v, "environment") == Str(c.environment)
            && Field(v, "raw_content") == Str(c.rawContent) && Field(v, "target_database") == OptStr(c.targetDatabase)
            && Field(v, "operations") == List(MapSeq(OperationTo, c.operations)) && Has(v, "operations")
            && Field(v, "metadata") == Dict(c.metadata) && Has(v, "metadata")
  {
    hide ChangeTypeName, ChangeSourceName, OptStr, OperationTo;
  }

  /** A change is read back as it was stored exactly when all its operations are of the kind they are stored under. */
  lemma ChangeRoundTrip(c: ChangeRecord)
    ensures ChangeFrom(ChangeTo(c)) == Some(c) <==> forall op :: op in c.operations ==> Storable(op)
  {
    hide Storable, OperationTo, OperationFrom, AsList, ChangeTo, Field, Has, OptStr, AsOptStr;
    hide ParseChangeType, ChangeTypeName, ParseChangeSource, ChangeSourceName;
    ChangeTypeNamed(c.changeType);
    ChangeSourceNamed(c.source);
    ChangeFields(c);
    OptionsRead(c.targetDatabase, None);
    OperationsRoundTrip(c.operations);
  }
}
