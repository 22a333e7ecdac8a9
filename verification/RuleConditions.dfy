/** Rule conditions: the document they are tested on, and the comparison operators. */
module RuleConditions {
  import opened Prelude
  import opened Changes
  import opened RiskFactors
  import opened RiskEngine
  import opened EnumNames
  import opened RiskPolicy

  // ---------------------------------------------------------------------------
  // The assessed document
  // ---------------------------------------------------------------------------

  function SeverityLabel(s: Severity): string {
    match s
    case LowSeverity => "LOW"
    case MediumSeverity => "MEDIUM"
    case HighSeverity => "HIGH"
    case CriticalSeverity => "CRITICAL"
  }

  function FactorEntry(f: WeightedScore): Value {
    Dict(map["score" := Num(f.score), "label" := Str(SeverityLabel(f.severity)), "weight" := Num(f.weight)])
  }

  function FactorEntries(factors: seq<WeightedScore>): map<string, Value> {
    if factors == [] then map[]
    else
      var n := |factors| - 1;
      FactorEntries(factors[..n])[FactorName(factors[n].factor) := FactorEntry(factors[n])]
  }

  function OperationTypes(ops: seq<DatabaseChange>): seq<Value> {
    MapSeq((op: DatabaseChange) => Str(OperationName(op.operation)), ops)
  }

  function Document(environment: string, ops: seq<DatabaseChange>, a: Assessment): Value {
    Dict(map["environment" := Str(environment),
             "is_production" := Bool(IsProductionEnvironment(environment)),
             "overall_score" := Num(a.overallScore),
             "risk_level" := Str(LevelName(a.level)),
             "confidence" := Num(a.confidence),
             "factors" := Dict(FactorEntries(a.factors)),
             "operation_types" := List(OperationTypes(ops))])
  }

  predicate Digits(s: string) {
    s != "" && forall i :: 0 <= i < |s| ==> '0' <= s[i] <= '9'
  }

  function Decimal(s: string): nat
    requires forall i :: 0 <= i < |s| ==> '0' <= s[i] <= '9'
  {
    if s == "" then 0 else 10 * Decimal(s[..|s| - 1]) + (s[|s| - 1] as int - '0' as int)
  }

  /** The value at a path, through dictionaries and list positions; `Null` if a segment is missing. */
  function Resolve(v: Value, path: seq<string>): Value
    decreases |path|
  {
    if path == [] then v
    else if v.Dict? && path[0] in v.fields then Resolve(v.fields[path[0]], path[1..])
    else if v.List? && Digits(path[0]) && Decimal(path[0]) < |v.items| then Resolve(v.items[Decimal(path[0])], path[1..])
    else Null
  }

  // ---------------------------------------------------------------------------
  // The operators
  // ---------------------------------------------------------------------------

  /** Truth values count as the numbers 0 and 1. */
  function Number(v: Value): Option<real> {
    match v
    case Num(n) => Some(n)
    case Bool(b) => Some(if b then 1.0 else 0.0)
    case _ => None
  }

  /** Python's `==`. */
  predicate Same(a: Value, b: Value)
    decreases a
  {
    if Number(a).Some? || Number(b).Some? then Number(a) == Number(b)
    else
      match a
      case List(xs) => b.List? && |xs| == |b.items| && forall i :: 0 <= i < |xs| ==> Same(xs[i], b.items[i])
      case Dict(f) => b.Dict? && f.Keys == b.fields.Keys && forall k :: k in f.Keys ==> Same(f[k], b.fields[k])
      case _ => a == b
  }

  /** Which of two values comes first: negative, zero or positive. */
  function Sign(a: real, b: real): int {
    if a < b then -1 else if a == b then 0 else 1
  }

  function CompareText(a: string, b: string): int {
    if a == "" then (if b == "" then 0 else -1)
    else if b == "" then 1
    else if a[0] < b[0] then -1
    else if a[0] > b[0] then 1
    else CompareText(a[1..], b[1..])
  }

  /** Python's order on numbers, texts and lists; comparing anything else raises an error. */
  function Compare(a: Value, b: Value): Option<int>
    decreases a, 1
  {
    if Number(a).Some? && Number(b).Some? then Some(Sign(Number(a).value, Number(b).value))
    else if a.Str? && b.Str? then Some(CompareText(a.s, b.s))
    else if a.List? && b.List? then CompareLists(a, b, 0)
    else None
  }

  /** Lists are compared at the first position where they differ. */
  function CompareLists(a: Value, b: Value, i: nat): Option<int>
    requires a.List? && b.List? && i <= |a.items|
    decreases a, 0, |a.items| - i
  {
    if i == |a.items| || i >= |b.items| then Some(Sign(|a.items| as real, |b.items| as real))
    else if Same(a.items[i], b.items[i]) then CompareLists(a, b, i + 1)
    else Compare(a.items[i], b.items[i])
  }

  predicate Contains(text: string, part: string) {
    exists i :: 0 <= i <= |text| && part <= text[i..]
  }

  /** Python's `item in whole`. */
  function Within(item: Value, whole: Value): Option<bool> {
    match whole
    case List(items) => Some(exists i :: 0 <= i < |items| && Same(item, items[i]))
    case Str(text) => if item.Str? then Some(Contains(text, item.s)) else None
    case Dict(fields) => if item.List? || item.Dict? then None else Some(item.Str? && item.s in fields)
    case _ => None
  }

  function Length(v: Value): Option<nat> {
    match v
    case Str(s) => Some(|s|)
    case List(items) => Some(|items|)
    case Dict(fields) => Some(|fields|)
    case _ => None
  }

  /** Matching a regular expression is given. */
  type Matcher = (Value, Value) -> Option<bool>

  function Ordered(actual: Value, expected: Value, accept: int -> bool): Option<bool> {
    if actual.Null? then Some(false)
    else
      match Compare(actual, expected)
      case None => None
      case Some(c) => Some(accept(c))
  }

  /** The outcome of an operator; an operator that does not exist raises an error. */
  function Operate(operator: string, actual: Value, expected: Value, regex: Matcher): Option<bool> {
    if operator == "equals" then Some(Same(actual, expected))
    else if operator == "not_equals" then Some(!Same(actual, expected))
    else if operator == "gte" then Ordered(actual, expected, c => c >= 0)
    else if operator == "lte" then Ordered(actual, expected, c => c <= 0)
    else if operator == "gt" then Ordered(actual, expected, c => c > 0)
    else if operator == "lt" then Ordered(actual, expected, c => c < 0)
    else if operator == "in" then Within(actual, expected)
    else if operator == "not_in" then Negated(Within(actual, expected))
    else if operator == "contains" then (if actual.Null? then Some(false) else Within(expected, actual))
    else if operator == "min_length" then MinLength(actual, expected)
    else if operator == "regex" then (if actual.Null? then Some(false) else regex(actual, expected))
    else None
  }

  function Negated(answer: Option<bool>): Option<bool> {
    if answer.Some? then Some(!answer.value) else None
  }

  function MinLength(actual: Value, expected: Value): Option<bool> {
    if actual.Null? then Some(false)
    else if Length(actual).None? then None
    else Ordered(Num(Length(actual).value as real), expected, c => c >= 0)
  }

  function Holds(doc: Value, c: Condition, regex: Matcher): Option<bool> {
    Operate(c.operator, Resolve(doc, Split(c.field, '.')), c.value, regex)
  }

  /** The outcome of every condition on one document. */
  function Tests(doc: Value, regex: Matcher): Outcomes {
    (c: Condition) => Holds(doc, c, regex)
  }

  // ---------------------------------------------------------------------------
  // Conditions that stay met
  // ---------------------------------------------------------------------------

  /** The same factors with scores, and with a level, that are no lower. */
  ghost predicate NoLower(a: Assessment, b: Assessment) {
    && a.overallScore <= b.overallScore
    && a.level.Rank() <= b.level.Rank()
    && FactorsNoLower(a.factors, b.factors)
  }

  ghost predicate FactorsNoLower(a: seq<WeightedScore>, b: seq<WeightedScore>) {
    && |a| == |b|
    && forall i :: 0 <= i < |a| ==>
         a[i].factor == b[i].factor && a[i].weight == b[i].weight && a[i].score <= b[i].score
  }

  predicate IsFactorScore(path: seq<string>) {
    |path| == 3 && path[0] == "factors" && path[2] == "score"
  }

  /** A score is at least, or above, a bound. */
  predicate OnScore(path: seq<string>, c: Condition) {
    (path == ["overall_score"] || IsFactorScore(path)) && (c.operator == "gte" || c.operator == "gt") && c.value.Num?
  }

  predicate NamesLevel(items: seq<Value>, l: RiskLevel) {
    Str(LevelName(l)) in items
  }

  /** The level is one of a list that, with a level, has the higher ones. */
  ghost predicate OnLevel(path: seq<string>, c: Condition) {
    && path == ["risk_level"] && c.operator == "in" && c.value.List?
    && forall l: RiskLevel, m: RiskLevel :: NamesLevel(c.value.items, l) && l.Rank() <= m.Rank() ==> NamesLevel(c.value.items, m)
  }

  /** Some operation is of a kind, or there are enough of them. */
  predicate OnOperations(path: seq<string>, c: Condition) {
    path == ["operation_types"] && (c.operator == "contains" || (c.operator == "min_length" && c.value.Num?))
  }

  /** Only the environment of the change is tested. */
  predicate OnEnvironment(path: seq<string>) {
    path == ["environment"] || path == ["is_production"]
  }

  /** A condition of a kind that stays met; a reader of the rule can tell. */
  ghost predicate Upward(c: Condition) {
    var path := Split(c.field, '.');
    OnScore(path, c) || OnLevel(path, c) || OnOperations(path, c) || OnEnvironment(path)
  }

  lemma {:induction false} EntriesNoLower(a: seq<WeightedScore>, b: seq<WeightedScore>, name: string)
    requires FactorsNoLower(a, b)
    ensures name in FactorEntries(a) <==> name in FactorEntries(b)
    ensures name in FactorEntries(a) ==>
              exists i :: 0 <= i < |a| && FactorEntries(a)[name] == FactorEntry(a[i])
                                       && FactorEntries(b)[name] == FactorEntry(b[i])
  {
    if a != [] {
      var n := |a| - 1;
      EntriesNoLower(a[..n], b[..n], name);
      if name != FactorName(a[n].factor) && name in FactorEntries(a[..n]) {
        var i :| 0 <= i < n && FactorEntries(a[..n])[name] == FactorEntry(a[..n][i])
                            && FactorEntries(b[..n])[name] == FactorEntry(b[..n][i]);
        assert FactorEntries(a)[name] == FactorEntry(a[i]) && FactorEntries(b)[name] == FactorEntry(b[i]);
      } else if name == FactorName(a[n].factor) {
        assert FactorEntries(a)[name] == FactorEntry(a[n]) && FactorEntries(b)[name] == FactorEntry(b[n]);
      }
    }
  }

  lemma ResolveOne(doc: Value, key: string)
    requires doc.Dict? && key in doc.fields
    ensures Resolve(doc, [key]) == doc.fields[key]
  {
    assert [key][1..] == [];
  }

  /** A factor score as a condition sees it: `Null` for a factor without weight. */
  lemma ResolveScore(environment: string, ops: seq<DatabaseChange>, a: Assessment, path: seq<string>)
    requires IsFactorScore(path)
    ensures var entries, v := FactorEntries(a.factors), Resolve(Document(environment, ops, a), path);
            && (path[1] !in entries ==> v == Null)
            && (forall f: WeightedScore :: path[1] in entries && entries[path[1]] == FactorEntry(f) ==> v == Num(f.score))
  {
    hide FactorEntries, OperationTypes, LevelName, IsProductionEnvironment, SeverityLabel;
    var doc, entries := Document(environment, ops, a), FactorEntries(a.factors);
    var rest := path[1..];
    assert rest[0] == path[1] && rest[1..] == ["score"];
    assert Resolve(doc, path) == Resolve(Dict(entries), rest);
    if path[1] in entries {
      assert Resolve(Dict(entries), rest) == Resolve(entries[path[1]], ["score"]);
      forall f: WeightedScore | entries[path[1]] == FactorEntry(f)
        ensures Resolve(entries[path[1]], ["score"]) == Num(f.score)
      {
        ResolveOne(entries[path[1]], "score");
      }
    }
  }

  lemma ScoreNoLower(environment: string, x: seq<DatabaseChange>, a: Assessment, y: seq<DatabaseChange>, b: Assessment,
                     path: seq<string>)
    requires NoLower(a, b) && (IsFactorScore(path) || path == ["overall_score"])
    ensures var u, v := Resolve(Document(environment, x, a), path), Resolve(Document(environment, y, b), path);
            (u.Null? && v.Null?) || (u.Num? && v.Num? && u.n <= v.n)
  {
    hide Document;
    if IsFactorScore(path) {
      ResolveScore(environment, x, a, path);
      ResolveScore(environment, y, b, path);
      EntriesNoLower(a.factors, b.factors, path[1]);
    } else {
      OverallSeen(environment, x, a);
      OverallSeen(environment, y, b);
    }
  }

  lemma OverallSeen(environment: string, ops: seq<DatabaseChange>, a: Assessment)
    ensures Resolve(Document(environment, ops, a), ["overall_score"]) == Num(a.overallScore)
    ensures Resolve(Document(environment, ops, a), ["risk_level"]) == Str(LevelName(a.level))
    ensures Resolve(Document(environment, ops, a), ["operation_types"]) == List(OperationTypes(ops))
    ensures Resolve(Document(environment, ops, a), ["environment"]) == Str(environment)
    ensures Resolve(Document(environment, ops, a), ["is_production"]) == Bool(IsProductionEnvironment(environment))
    ensures Resolve(Document(environment, ops, a), ["confidence"]) == Num(a.confidence)
  {
    hide LevelName, OperationTypes, IsProductionEnvironment, FactorEntries;
    var doc := Document(environment, ops, a);
    ResolveOne(doc, "overall_score");
    ResolveOne(doc, "risk_level");
    ResolveOne(doc, "operation_types");
    ResolveOne(doc, "environment");
    ResolveOne(doc, "is_production");
    ResolveOne(doc, "confidence");
  }

  /** A level is one of the listed texts exactly when its name is listed. */
  lemma LevelWithin(l: RiskLevel, items: seq<Value>)
    ensures Within(Str(LevelName(l)), List(items)) == Some(NamesLevel(items, l))
  {
    hide LevelName;
    var name := Str(LevelName(l));
    assert forall i :: 0 <= i < |items| ==> (Same(name, items[i]) <==> name == items[i]);
  }

  lemma OperationsStay(x: seq<DatabaseChange>, y: seq<DatabaseChange>, expected: Value)
    requires x <= y
    ensures OperationTypes(x) <= OperationTypes(y)
    ensures Within(expected, List(OperationTypes(x))) == Some(true) ==>
              Within(expected, List(OperationTypes(y))) == Some(true)
  {
    hide OperationName, Same;
    var xs, ys := OperationTypes(x), OperationTypes(y);
    assert forall i :: 0 <= i < |xs| ==> xs[i] == ys[i];
    if i :| 0 <= i < |xs| && Same(expected, xs[i]) {
      assert Same(expected, ys[i]);
    }
  }

  /** If no score and no level falls and operations are appended, a condition of an upward kind stays met. */
  lemma UpwardStaysMet(environment: string, x: seq<DatabaseChange>, a: Assessment, y: seq<DatabaseChange>,
                       b: Assessment, c: Condition, regex: Matcher)
    requires NoLower(a, b) && x <= y && Upward(c)
    requires Holds(Document(environment, x, a), c, regex) == Some(true)
    ensures Holds(Document(environment, y, b), c, regex) == Some(true)
  {
    hide Document, Resolve, OperationTypes, LevelName, Within, Same;
    var path := Split(c.field, '.');
    OverallSeen(environment, x, a);
    OverallSeen(environment, y, b);
    if OnScore(path, c) {
      ScoreNoLower(environment, x, a, y, b, path);
    } else if OnLevel(path, c) {
      LevelWithin(a.level, c.value.items);
      LevelWithin(b.level, c.value.items);
    } else if OnOperations(path, c) {
      OperationsStay(x, y, c.value);
    }
  }

  // ---------------------------------------------------------------------------
  // The default rules
  // ---------------------------------------------------------------------------

  predicate Does(r: Rule, conditions: seq<Condition>, setLevel: Option<string>, requireApproval: bool) {
    r.conditions == conditions && r.setLevel == setLevel && r.requireApproval == requireApproval
  }

  /** Three segments joined by dots. */
  function Dotted(a: string, b: string, c: string): string {
    a + ['.'] + (b + ['.'] + c)
  }

  const IN_PRODUCTION := Condition("is_production", "equals", Bool(true))
  const HIGH_OR_CRITICAL := Condition("risk_level", "in", List([Str("high"), Str("critical")]))
  const LARGE_TABLE := Condition(Dotted("factors", "table_size", "score"), "gte", Num(75.0))
  const BREAKING := Condition(Dotted("factors", "backward_compatibility", "score"), "gte", Num(55.0))
  const INDEX_BUILD := Condition(Dotted("factors", "index_impact", "score"), "gte", Num(85.0))
  const WIDE_BLAST := Condition(Dotted("factors", "dependency_count", "score"), "gte", Num(85.0))
  const LOW_CONFIDENCE := Condition("confidence", "lt", Num(0.6))

  /** The rules that come with the repository, whatever their texts. */
  predicate DefaultRules(rules: seq<Rule>) {
    && |rules| == 5
    && Does(rules[0], [IN_PRODUCTION, HIGH_OR_CRITICAL], None, true)
    && Does(rules[1], [IN_PRODUCTION, LARGE_TABLE, BREAKING], Some("critical"), true)
    && Does(rules[2], [INDEX_BUILD], None, false)
    && Does(rules[3], [WIDE_BLAST], None, true)
    && Does(rules[4], [LOW_CONFIDENCE], None, false)
  }

  lemma DottedSplits(a: string, b: string, c: string)
    requires '.' !in a && '.' !in b && '.' !in c
    ensures Split(Dotted(a, b, c), '.') == [a, b, c]
  {
    hide Split;
    SplitPrefix(a, b + ['.'] + c, '.');
    SplitPrefix(b, c, '.');
    SplitWithout(c, '.');
  }

  lemma ScorePath(name: string)
    requires '.' !in name
    ensures Split(Dotted("factors", name, "score"), '.') == ["factors", name, "score"]
  {
    hide Split, Dotted;
    DottedSplits("factors", name, "score");
  }

  lemma DefaultPaths()
    ensures Split("is_production", '.') == ["is_production"] && Split("risk_level", '.') == ["risk_level"]
    ensures Split("confidence", '.') == ["confidence"]
    ensures IsFactorScore(Split(LARGE_TABLE.field, '.')) && IsFactorScore(Split(BREAKING.field, '.'))
    ensures IsFactorScore(Split(INDEX_BUILD.field, '.')) && IsFactorScore(Split(WIDE_BLAST.field, '.'))
  {
    hide Split, Dotted;
    ScorePath("table_size");
    ScorePath("backward_compatibility");
    ScorePath("index_impact");
    ScorePath("dependency_count");
    SplitWithout("is_production", '.');
    SplitWithout("risk_level", '.');
    SplitWithout("confidence", '.');
  }

  /** Rules whose level-setting and approval conditions are all upward. */
  ghost predicate Rising(rules: seq<Rule>) {
    forall r :: r in rules && (r.setLevel.Some? || r.requireApproval) ==>
      forall i :: 0 <= i < |r.conditions| ==> Upward(r.conditions[i])
  }

  /** Under such rules nothing that held ceases to hold. */
  lemma RisingStillHolds(environment: string, x: seq<DatabaseChange>, a: Assessment, y: seq<DatabaseChange>,
                         b: Assessment, rules: seq<Rule>, regex: Matcher)
    requires NoLower(a, b) && x <= y && Rising(rules)
    ensures StillHold(rules, Tests(Document(environment, x, a), regex), Tests(Document(environment, y, b), regex))
  {
    hide Holds, Document, NoLower, Upward;
    forall r, i | r in rules && (r.setLevel.Some? || r.requireApproval) && 0 <= i < |r.conditions|
                  && Holds(Document(environment, x, a), r.conditions[i], regex) == Some(true)
      ensures Holds(Document(environment, y, b), r.conditions[i], regex) == Some(true)
    {
      UpwardStaysMet(environment, x, a, y, b, r.conditions[i], regex);
    }
  }

  lemma LevelsUpward()
    ensures OnLevel(["risk_level"], HIGH_OR_CRITICAL)
  {
    var items := HIGH_OR_CRITICAL.value.items;
    assert items == [Str("high"), Str("critical")];
    assert forall l :: NamesLevel(items, l) <==> l.Rank() >= 2 by {
      assert items[0] == Str("high") && items[1] == Str("critical");
      assert "low" != "high" && "low" != "critical" && "medium" != "high" && "medium" != "critical";
    }
  }

  /** The default rules are such rules. */
  lemma DefaultRulesRise(rules: seq<Rule>)
    requires DefaultRules(rules)
    ensures Rising(rules)
  {
    hide Split, IsFactorScore, OnLevel;
    DefaultPaths();
    LevelsUpward();
    assert Upward(IN_PRODUCTION) && Upward(HIGH_OR_CRITICAL) && Upward(LARGE_TABLE) && Upward(BREAKING) && Upward(WIDE_BLAST);
  }

  lemma DefaultConditionsAnswer(environment: string, ops: seq<DatabaseChange>, a: Assessment, regex: Matcher)
    ensures forall c :: c in [IN_PRODUCTION, HIGH_OR_CRITICAL, LARGE_TABLE, BREAKING, INDEX_BUILD, WIDE_BLAST, LOW_CONFIDENCE]
              ==> Holds(Document(environment, ops, a), c, regex).Some?
  {
    hide Split, Document, Resolve, IsFactorScore, LevelName, Same, Dotted;
    DefaultPaths();
    OverallSeen(environment, ops, a);
    forall c | c in [LARGE_TABLE, BREAKING, INDEX_BUILD, WIDE_BLAST]
      ensures Holds(Document(environment, ops, a), c, regex).Some?
    {
      ScoreNoLower(environment, ops, a, ops, a, Split(c.field, '.'));
    }
  }

  /** Testing a default condition never raises an error. */
  lemma DefaultRulesAreUsable(environment: string, ops: seq<DatabaseChange>, a: Assessment, rules: seq<Rule>,
                              regex: Matcher)
    requires DefaultRules(rules)
    ensures Usable(rules, Tests(Document(environment, ops, a), regex))
  {
    hide Holds, Document, AllHold, Dotted;
    var holds := Tests(Document(environment, ops, a), regex);
    DefaultConditionsAnswer(environment, ops, a, regex);
    forall r | r in rules ensures !Broken(r, holds) {
      AllHoldExactly(r.conditions, holds);
    }
  }
}
