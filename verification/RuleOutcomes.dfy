/** What the rules that come with the repository decide, and what each comparison of a rule means. */
module RuleOutcomes {
  import opened Prelude
  import opened Changes
  import opened RiskFactors
  import opened RiskEngine
  import opened EnumNames
  import opened RiskPolicy
  import opened RuleConditions
  import opened FactorCauses
  import Pipeline

  // ---------------------------------------------------------------------------
  // The comparisons
  // ---------------------------------------------------------------------------

  /** On numbers. */
  lemma NumbersCompare(a: real, b: real, regex: Matcher)
    ensures Operate("equals", Num(a), Num(b), regex) == Some(a == b)
    ensures Operate("not_equals", Num(a), Num(b), regex) == Some(a != b)
    ensures Operate("gte", Num(a), Num(b), regex) == Some(a >= b)
    ensures Operate("lte", Num(a), Num(b), regex) == Some(a <= b)
    ensures Operate("gt", Num(a), Num(b), regex) == Some(a > b)
    ensures Operate("lt", Num(a), Num(b), regex) == Some(a < b)
  {
  }

  /** `a` comes before `b`: it stops first, or has the smaller character where they first differ. */
  ghost predicate Before(a: string, b: string) {
    a < b || exists i :: 0 <= i < |a| && i < |b| && a[..i] == b[..i] && a[i] < b[i]
  }

  lemma {:induction false} CompareTextIs(a: string, b: string)
    ensures CompareText(a, b) == 0 <==> a == b
    ensures CompareText(a, b) < 0 <==> Before(a, b)
    ensures CompareText(a, b) > 0 <==> Before(b, a)
  {
    if a != "" && b != "" {
      CompareTextIs(a[1..], b[1..]);
      assert a == [a[0]] + a[1..] && b == [b[0]] + b[1..];
      BeforeNext(a, b);
      BeforeNext(b, a);
    }
  }

  lemma BeforeNext(a: string, b: string)
    requires a != "" && b != ""
    ensures Before(a, b) <==> a[0] < b[0] || (a[0] == b[0] && Before(a[1..], b[1..]))
  {
    if a[0] < b[0] {
      assert a[..0] == b[..0];
    }
    if i :| 0 <= i < |a| && i < |b| && a[..i] == b[..i] && a[i] < b[i] && i > 0 {
      assert a[..i][0] == b[..i][0];
      assert a[1..][..i - 1] == a[..i][1..] == b[..i][1..] == b[1..][..i - 1];
      assert a[1..][i - 1] == a[i] && b[1..][i - 1] == b[i];
    }
    if i :| 0 <= i < |a[1..]| && i < |b[1..]| && a[1..][..i] == b[1..][..i] && a[1..][i] < b[1..][i] && a[0] == b[0] {
      assert a[..i + 1] == [a[0]] + a[1..][..i] && b[..i + 1] == [b[0]] + b[1..][..i];
    }
  }

  /** On texts: their equality, and the order of the dictionary. */
  lemma TextsCompare(a: string, b: string, regex: Matcher)
    ensures Operate("equals", Str(a), Str(b), regex) == Some(a == b)
    ensures Operate("not_equals", Str(a), Str(b), regex) == Some(a != b)
    ensures Operate("gt", Str(a), Str(b), regex) == Some(Before(b, a))
    ensures Operate("lt", Str(a), Str(b), regex) == Some(Before(a, b))
    ensures Operate("gte", Str(a), Str(b), regex) == Some(a == b || Before(b, a))
    ensures Operate("lte", Str(a), Str(b), regex) == Some(a == b || Before(a, b))
  {
    hide Before, CompareText;
    CompareTextIs(a, b);
  }

  /** A text in a list of texts, and a text in a text. */
  lemma MembersCompare(item: string, items: seq<string>, text: string, regex: Matcher)
    ensures var list := Strs(items);
            && Operate("in", Str(item), list, regex) == Some(item in items)
            && Operate("not_in", Str(item), list, regex) == Some(item !in items)
            && Operate("contains", list, Str(item), regex) == Some(item in items)
            && (forall n: real :: Operate("min_length", list, Num(n), regex) == Some(|items| as real >= n))
    ensures var inside := exists before, after :: before + item + after == text;
            && Operate("in", Str(item), Str(text), regex) == Some(inside)
            && Operate("not_in", Str(item), Str(text), regex) == Some(!inside)
            && Operate("contains", Str(text), Str(item), regex) == Some(inside)
            && (forall n: real :: Operate("min_length", Str(text), Num(n), regex) == Some(|text| as real >= n))
  {
    ListHas(item, items);
    TextHas(item, text);
    hide Contains, Within, Same, Compare;
    assert forall x: real, y: real :: Compare(Num(x), Num(y)) == Some(Sign(x, y)) by {
      forall x: real, y: real ensures Compare(Num(x), Num(y)) == Some(Sign(x, y)) {
        CompareNumbers(x, y);
      }
    }
  }

  lemma CompareNumbers(x: real, y: real)
    ensures Compare(Num(x), Num(y)) == Some(Sign(x, y))
  {
  }

  lemma ListHas(item: string, items: seq<string>)
    ensures Within(Str(item), Strs(items)) == Some(item in items)
  {
    var list := Strs(items).items;
    assert forall i :: 0 <= i < |list| ==> list[i] == Str(items[i]) && (Same(Str(item), list[i]) <==> item == items[i]);
    if item in items {
      var i :| 0 <= i < |items| && items[i] == item;
      assert Same(Str(item), list[i]);
    }
  }

  lemma TextHas(item: string, text: string)
    ensures Within(Str(item), Str(text)) == Some(exists before, after :: before + item + after == text)
  {
    if i :| 0 <= i <= |text| && item <= text[i..] {
      assert text[..i] + item + text[i..][|item|..] == text;
    }
    if before, after :| before + item + after == text {
      assert text[|before|..] == item + after;
    }
  }

  /** A field that is missing is less than nothing and holds nothing; truth values count as 0 and 1; the rest raises. */
  lemma OddCompare(v: Value, b: bool, n: real, s: string, fields: map<string, Value>, regex: Matcher)
    ensures forall op :: op in ["gte", "lte", "gt", "lt", "contains", "min_length", "regex"] ==>
              Operate(op, Null, v, regex) == Some(false)
    ensures Operate("equals", Null, v, regex) == Some(v == Null)
    ensures Operate("equals", Bool(b), Num(n), regex) == Some(n == if b then 1.0 else 0.0)
    ensures Operate("equals", Num(n), Str(s), regex) == Some(false)
    ensures Operate("in", Str(s), Dict(fields), regex) == Some(s in fields)
    ensures Operate("in", Num(n), Dict(fields), regex) == Some(false)
    ensures v.List? || v.Dict? ==> Operate("in", v, Dict(fields), regex) == None
    ensures Operate("gte", Num(n), Str(s), regex) == None && Operate("in", Str(s), Num(n), regex) == None
    ensures s !in ["equals", "not_equals", "gte", "lte", "gt", "lt", "in", "not_in", "contains", "min_length", "regex"] ==>
              Operate(s, v, v, regex) == None
  {
  }

  /** A document with the numbers 0 and 1 for its truth values. */
  function Numbered(v: Value): Value {
    match v
    case Bool(b) => Num(if b then 1.0 else 0.0)
    case List(items) => List(seq(|items|, i requires 0 <= i < |items| => Numbered(items[i])))
    case Dict(fields) => Dict(map k | k in fields :: Numbered(fields[k]))
    case _ => v
  }

  /** Values are equal exactly when they are the same document, truth values read as numbers. */
  lemma {:induction false} EqualExactly(a: Value, b: Value, regex: Matcher)
    ensures Same(a, b) <==> Numbered(a) == Numbered(b)
    ensures Operate("equals", a, b, regex) == Some(Numbered(a) == Numbered(b))
    ensures Operate("not_equals", a, b, regex) == Some(Numbered(a) != Numbered(b))
    decreases a
  {
    if a.List? && b.List? {
      forall i | 0 <= i < |a.items| && i < |b.items|
        ensures Same(a.items[i], b.items[i]) <==> Numbered(a.items[i]) == Numbered(b.items[i])
      {
        EqualExactly(a.items[i], b.items[i], regex);
      }
      ListsNumbered(a, b);
    } else if a.Dict? && b.Dict? {
      forall k | k in a.fields && k in b.fields
        ensures Same(a.fields[k], b.fields[k]) <==> Numbered(a.fields[k]) == Numbered(b.fields[k])
      {
        EqualExactly(a.fields[k], b.fields[k], regex);
      }
      DictsNumbered(a, b);
    }
  }

  lemma ListsNumbered(a: Value, b: Value)
    requires a.List? && b.List?
    ensures Numbered(a) == Numbered(b) <==>
            |a.items| == |b.items| && forall i :: 0 <= i < |a.items| ==> Numbered(a.items[i]) == Numbered(b.items[i])
  {
    var xs, ys := Numbered(a).items, Numbered(b).items;
    assert |xs| == |a.items| && |ys| == |b.items|;
    assert forall i :: 0 <= i < |xs| ==> xs[i] == Numbered(a.items[i]);
    assert forall i :: 0 <= i < |ys| ==> ys[i] == Numbered(b.items[i]);
  }

  lemma DictsNumbered(a: Value, b: Value)
    requires a.Dict? && b.Dict?
    ensures Numbered(a) == Numbered(b) <==>
            a.fields.Keys == b.fields.Keys && forall k :: k in a.fields ==> Numbered(a.fields[k]) == Numbered(b.fields[k])
  {
    var f, g := Numbered(a).fields, Numbered(b).fields;
    assert f.Keys == a.fields.Keys && g.Keys == b.fields.Keys;
    assert forall k :: k in f ==> f[k] == Numbered(a.fields[k]);
    assert forall k :: k in g ==> g[k] == Numbered(b.fields[k]);
  }

  /** Lists are compared where they first differ, and by length if one starts the other. */
  lemma {:induction false} ListsCompareFrom(a: Value, b: Value, i: nat, d: nat)
    requires a.List? && b.List? && i <= d <= |a.items| && d <= |b.items|
    requires forall j :: i <= j < d ==> Same(a.items[j], b.items[j])
    requires d < |a.items| && d < |b.items| ==> !Same(a.items[d], b.items[d])
    ensures CompareLists(a, b, i) ==
            if d < |a.items| && d < |b.items| then Compare(a.items[d], b.items[d])
            else Some(Sign(|a.items| as real, |b.items| as real))
    decreases d - i
  {
    if i < d {
      ListsCompareFrom(a, b, i + 1, d);
    }
  }

  lemma ListsCompare(a: Value, b: Value, d: nat)
    requires a.List? && b.List? && d <= |a.items| && d <= |b.items|
    requires forall j :: 0 <= j < d ==> Same(a.items[j], b.items[j])
    requires d < |a.items| && d < |b.items| ==> !Same(a.items[d], b.items[d])
    ensures d < |a.items| && d < |b.items| ==> Compare(a, b) == Compare(a.items[d], b.items[d])
    ensures !(d < |a.items| && d < |b.items|) ==>
              Compare(a, b) == Some(if |a.items| < |b.items| then -1 else if |a.items| == |b.items| then 0 else 1)
  {
    ListsCompareFrom(a, b, 0, d);
  }

  // ---------------------------------------------------------------------------
  // The fields the default rules test
  // ---------------------------------------------------------------------------

  /** A path goes through keys and list positions; where one is missing it comes to nothing. */
  lemma PathsResolve(v: Value, key: string, rest: seq<string>)
    ensures Resolve(v, []) == v
    ensures v.Dict? ==> Resolve(v, [key] + rest) == if key in v.fields then Resolve(v.fields[key], rest) else Null
    ensures v.List? ==> Resolve(v, ["7"] + rest) == if 7 < |v.items| then Resolve(v.items[7], rest) else Null
    ensures v.List? ==> Resolve(v, ["10"] + rest) == if 10 < |v.items| then Resolve(v.items[10], rest) else Null
    ensures v.List? && (key == "" || exists c :: c in key && !('0' <= c <= '9')) ==> Resolve(v, [key] + rest) == Null
    ensures !v.Dict? && !v.List? ==> Resolve(v, [key] + rest) == Null
  {
    assert ([key] + rest)[1..] == rest && (["7"] + rest)[1..] == rest && (["10"] + rest)[1..] == rest;
    assert Decimal("7") == 7 by {
      assert "7"[..0] == "";
    }
    assert Decimal("10") == 10 by {
      assert "10"[..1] == "1" && "1"[..0] == "";
    }
    if c :| c in key && !('0' <= c <= '9') {
      assert !Digits(key);
    }
  }

  /** The assessment reports this factor with at least this score; it reports no factor without weight. */
  ghost predicate AtLeast(a: Assessment, t: FactorType, n: real) {
    exists f :: f in a.factors && f.factor == t && f.score >= n
  }

  lemma NamesApart(t: FactorType, u: FactorType)
    ensures FactorName(t) == FactorName(u) <==> t == u
  {
    hide FactorName, ParseFactor;
    FactorNamed(t);
    FactorNamed(u);
  }

  lemma EntriesNext(factors: seq<WeightedScore>, f: WeightedScore)
    ensures FactorEntries(factors + [f]) == FactorEntries(factors)[FactorName(f.factor) := FactorEntry(f)]
  {
    hide FactorName, FactorEntry;
    assert (factors + [f])[..|factors|] == factors;
  }

  lemma {:induction false} EntryAt(factors: seq<WeightedScore>, i: nat)
    requires OneEach(factors) && i < |factors|
    ensures FactorName(factors[i].factor) in FactorEntries(factors)
    ensures FactorEntries(factors)[FactorName(factors[i].factor)] == FactorEntry(factors[i])
  {
    hide FactorName, FactorEntry, FactorEntries;
    var n := |factors| - 1;
    assert factors == factors[..n] + [factors[n]];
    EntriesNext(factors[..n], factors[n]);
    if i < n {
      NamesApart(factors[i].factor, factors[n].factor);
      EntryAt(factors[..n], i);
    }
  }

  lemma {:induction false} NoEntry(factors: seq<WeightedScore>, t: FactorType)
    requires forall i :: 0 <= i < |factors| ==> factors[i].factor != t
    ensures FactorName(t) !in FactorEntries(factors)
  {
    if factors == [] {
      assert FactorEntries(factors) == map[];
    } else {
      hide FactorName, FactorEntry, FactorEntries;
      var n := |factors| - 1;
      assert factors == factors[..n] + [factors[n]];
      EntriesNext(factors[..n], factors[n]);
      NamesApart(t, factors[n].factor);
      NoEntry(factors[..n], t);
    }
  }

  lemma EntryOf(factors: seq<WeightedScore>, t: FactorType)
    requires OneEach(factors)
    ensures FactorName(t) in FactorEntries(factors) <==> exists f :: f in factors && f.factor == t
    ensures forall f :: f in factors && f.factor == t ==>
              FactorName(t) in FactorEntries(factors) && FactorEntries(factors)[FactorName(t)] == FactorEntry(f)
  {
    hide FactorName, FactorEntry, FactorEntries, OneEach;
    forall f | f in factors && f.factor == t
      ensures FactorName(t) in FactorEntries(factors) && FactorEntries(factors)[FactorName(t)] == FactorEntry(f)
    {
      var i :| 0 <= i < |factors| && factors[i] == f;
      EntryAt(factors, i);
    }
    if forall f :: f in factors ==> f.factor != t {
      NoEntry(factors, t);
    }
  }

  lemma ScoreTest(environment: string, ops: seq<DatabaseChange>, a: Assessment, t: FactorType, n: real, regex: Matcher)
    requires OneEach(a.factors) && '.' !in FactorName(t)
    ensures Holds(Document(environment, ops, a), Condition(Dotted("factors", FactorName(t), "score"), "gte", Num(n)), regex)
            == Some(AtLeast(a, t, n))
  {
    hide Document, Resolve, Dotted, Split, FactorEntries, FactorName, FactorEntry, OneEach;
    var path := ["factors", FactorName(t), "score"];
    ScorePath(FactorName(t));
    EntryOf(a.factors, t);
    ResolveScore(environment, ops, a, path);
    if f :| f in a.factors && f.factor == t {
      assert Resolve(Document(environment, ops, a), path) == Num(f.score);
      OnlyOne(a.factors, f);
    }
  }

  lemma OnlyOne(factors: seq<WeightedScore>, f: WeightedScore)
    requires OneEach(factors) && f in factors
    ensures forall g :: g in factors && g.factor == f.factor ==> g == f
  {
    var i :| 0 <= i < |factors| && factors[i] == f;
    forall g | g in factors && g.factor == f.factor ensures g == f {
      var j :| 0 <= j < |factors| && factors[j] == g;
    }
  }

  predicate IsLabel(s: Severity, text: string) {
    match s
    case LowSeverity => text == "LOW"
    case MediumSeverity => text == "MEDIUM"
    case HighSeverity => text == "HIGH"
    case CriticalSeverity => text == "CRITICAL"
  }

  /** What a rule sees of a factor the assessment reports. */
  lemma FactorSeen(environment: string, ops: seq<DatabaseChange>, a: Assessment, f: WeightedScore, text: string)
    requires OneEach(a.factors) && f in a.factors
    ensures var doc := Document(environment, ops, a);
            && Resolve(doc, ["factors", FactorName(f.factor), "score"]) == Num(f.score)
            && Resolve(doc, ["factors", FactorName(f.factor), "weight"]) == Num(f.weight)
            && (Resolve(doc, ["factors", FactorName(f.factor), "label"]) == Str(text) <==> IsLabel(f.severity, text))
  {
    hide FactorEntries, FactorName, OneEach, IsProductionEnvironment, LevelName, OperationTypes;
    var doc, entries, name := Document(environment, ops, a), FactorEntries(a.factors), FactorName(f.factor);
    EntryOf(a.factors, f.factor);
    forall key ensures Resolve(doc, ["factors", name, key]) == Resolve(FactorEntry(f), [key]) {
      var path := ["factors", name, key];
      assert path[1..] == [name, key] && [name, key][1..] == [key];
      assert Resolve(doc, path) == Resolve(Dict(entries), [name, key]);
    }
    ResolveOne(FactorEntry(f), "score");
    ResolveOne(FactorEntry(f), "weight");
    ResolveOne(FactorEntry(f), "label");
  }

  lemma SameText(a: string, b: string)
    ensures Same(Str(a), Str(b)) <==> a == b
  {
  }

  lemma KindsApart(x: DatabaseOperation, y: DatabaseOperation)
    ensures OperationName(x) == OperationName(y) <==> x == y
  {
    hide OperationName, FirstNamed;
    OperationNamed(x);
    OperationNamed(y);
  }

  lemma KindListed(ops: seq<DatabaseChange>, kind: DatabaseOperation)
    ensures Within(Str(OperationName(kind)), List(OperationTypes(ops))) == Some(AnyOf(ops, {kind}))
  {
    hide OperationName, Same;
    var names := OperationTypes(ops);
    forall i | 0 <= i < |ops| ensures Same(Str(OperationName(kind)), names[i]) <==> ops[i].operation == kind {
      SameText(OperationName(kind), OperationName(ops[i].operation));
      KindsApart(kind, ops[i].operation);
    }
    if op :| op in ops && op.operation == kind {
      var i :| 0 <= i < |ops| && ops[i] == op;
      assert Same(Str(OperationName(kind)), names[i]);
    }
  }

  /** Whether the change has an operation of a kind can be tested by the name of the kind. */
  lemma OperationTest(environment: string, ops: seq<DatabaseChange>, a: Assessment, kind: DatabaseOperation, regex: Matcher)
    ensures Holds(Document(environment, ops, a), Condition("operation_types", "contains", Str(OperationName(kind))), regex)
            == Some(AnyOf(ops, {kind}))
  {
    hide Document, Resolve, Split, OperationName, OperationTypes, AnyOf, Within, Same;
    SplitWithout("operation_types", '.');
    OverallSeen(environment, ops, a);
    KindListed(ops, kind);
  }

  lemma LevelTest(l: RiskLevel)
    ensures NamesLevel([Str("high"), Str("critical")], l) <==> l == High || l == RiskLevel.Critical
  {
    var items := [Str("high"), Str("critical")];
    assert items[0] == Str("high") && items[1] == Str("critical");
    assert "low"[0] != "high"[0] && "low"[0] != "critical"[0] && "medium"[0] != "high"[0] && "medium"[0] != "critical"[0];
  }

  lemma OtherTests(environment: string, ops: seq<DatabaseChange>, a: Assessment, regex: Matcher)
    ensures var doc := Document(environment, ops, a);
            && Holds(doc, Condition("is_production", "equals", Bool(true)), regex) == Some(InProduction(environment))
            && Holds(doc, Condition("risk_level", "in", List([Str("high"), Str("critical")])), regex)
               == Some(a.level == High || a.level == RiskLevel.Critical)
            && Holds(doc, Condition("confidence", "lt", Num(0.6)), regex) == Some(a.confidence < 0.6)
  {
    hide Document, Resolve, Split, LevelName, Within, NamesLevel, Dotted, IsProductionEnvironment, InProduction;
    DefaultPaths();
    OverallSeen(environment, ops, a);
    ProductionIs(environment);
    LevelWithin(a.level, [Str("high"), Str("critical")]);
    LevelTest(a.level);
  }

  /** The conditions of the default rules, one by one. */
  lemma DefaultTests(environment: string, ops: seq<DatabaseChange>, a: Assessment, regex: Matcher)
    requires OneEach(a.factors)
    ensures var holds := Tests(Document(environment, ops, a), regex);
            && holds(IN_PRODUCTION) == Some(InProduction(environment))
            && holds(HIGH_OR_CRITICAL) == Some(a.level == High || a.level == RiskLevel.Critical)
            && holds(LARGE_TABLE) == Some(AtLeast(a, TableSize, 75.0))
            && holds(BREAKING) == Some(AtLeast(a, BackwardCompatibility, 55.0))
            && holds(INDEX_BUILD) == Some(AtLeast(a, IndexImpact, 85.0))
            && holds(WIDE_BLAST) == Some(AtLeast(a, DependencyCount, 85.0))
            && holds(LOW_CONFIDENCE) == Some(a.confidence < 0.6)
  {
    hide Document, Holds, Dotted, AtLeast, OneEach, InProduction;
    OtherTests(environment, ops, a, regex);
    ScoreTest(environment, ops, a, TableSize, 75.0, regex);
    ScoreTest(environment, ops, a, BackwardCompatibility, 55.0, regex);
    ScoreTest(environment, ops, a, IndexImpact, 85.0, regex);
    ScoreTest(environment, ops, a, DependencyCount, 85.0, regex);
  }

  // ---------------------------------------------------------------------------
  // What they decide
  // ---------------------------------------------------------------------------

  /** A backward-incompatible change to a large table in production. */
  ghost predicate BreaksLargeTable(environment: string, a: Assessment) {
    InProduction(environment) && AtLeast(a, TableSize, 75.0) && AtLeast(a, BackwardCompatibility, 55.0)
  }

  ghost predicate HighRiskProduction(environment: string, a: Assessment) {
    InProduction(environment) && (a.level == High || a.level == RiskLevel.Critical)
  }

  lemma OneCondition(c: Condition, holds: Outcomes)
    requires holds(c).Some?
    ensures AllHold([c], holds) == holds(c)
  {
    assert [c][1..] == [];
  }

  lemma TwoConditions(c: Condition, d: Condition, holds: Outcomes)
    requires holds(c).Some? && holds(d).Some?
    ensures AllHold([c, d], holds) == Some(holds(c).value && holds(d).value)
    ensures AllHold([c], holds) == holds(c)
  {
    OneCondition(c, holds);
    OneCondition(d, holds);
    assert [c, d][1..] == [d];
  }

  lemma ThreeConditions(c: Condition, d: Condition, e: Condition, holds: Outcomes)
    requires holds(c).Some? && holds(d).Some? && holds(e).Some?
    ensures AllHold([c, d, e], holds) == Some(holds(c).value && holds(d).value && holds(e).value)
  {
    assert [c, d, e][1..] == [d, e];
    TwoConditions(d, e, holds);
  }

  /** Which of the default rules are triggered. */
  lemma DefaultTriggers(environment: string, ops: seq<DatabaseChange>, a: Assessment, rules: seq<Rule>, regex: Matcher)
    requires DefaultRules(rules) && OneEach(a.factors)
    ensures var holds := Tests(Document(environment, ops, a), regex);
            && (Triggered(rules[0], holds) <==> HighRiskProduction(environment, a))
            && (Triggered(rules[1], holds) <==> BreaksLargeTable(environment, a))
            && (Triggered(rules[2], holds) <==> AtLeast(a, IndexImpact, 85.0))
            && (Triggered(rules[3], holds) <==> AtLeast(a, DependencyCount, 85.0))
            && (Triggered(rules[4], holds) <==> a.confidence < 0.6)
  {
    hide Document, Tests, AllHold, AtLeast, OneEach, InProduction;
    var holds := Tests(Document(environment, ops, a), regex);
    DefaultTests(environment, ops, a, regex);
    TwoConditions(IN_PRODUCTION, HIGH_OR_CRITICAL, holds);
    ThreeConditions(IN_PRODUCTION, LARGE_TABLE, BREAKING, holds);
    TwoConditions(INDEX_BUILD, INDEX_BUILD, holds);
    TwoConditions(WIDE_BLAST, WIDE_BLAST, holds);
    TwoConditions(LOW_CONFIDENCE, LOW_CONFIDENCE, holds);
  }

  lemma DefaultAsks(rules: seq<Rule>, holds: Outcomes, assessed: RiskLevel, level: RiskLevel)
    requires DefaultRules(rules) && IsHighest(rules, holds, assessed, level)
    ensures level == if Triggered(rules[1], holds) then RiskLevel.Critical else assessed
    ensures (exists i :: 0 <= i < |rules| && AsksApproval(rules[i], holds)) <==>
            Triggered(rules[0], holds) || Triggered(rules[1], holds) || Triggered(rules[3], holds)
  {
    hide Triggered;
    assert forall r :: r in rules && r != rules[1] ==> r.setLevel.None?;
    assert ParseLevel("critical") == Some(RiskLevel.Critical);
    assert rules[1] in rules;
    if Triggered(rules[0], holds) {
      assert AsksApproval(rules[0], holds);
    }
    if Triggered(rules[1], holds) {
      assert AsksApproval(rules[1], holds);
    }
    if Triggered(rules[3], holds) {
      assert AsksApproval(rules[3], holds);
    }
  }

  /**
   * Under the default rules: approval is asked for a high or critical risk in production, for a breaking change to a
   * large table in production, and for a very wide blast radius anywhere; only the second makes the level critical.
   */
  lemma DefaultOutcome(report: Pipeline.Report, environment: string, ops: seq<DatabaseChange>, a: Assessment,
                       rules: seq<Rule>, regex: Matcher)
    requires DefaultRules(rules) && OneEach(a.factors) && Pipeline.Judged(report, environment, ops, a, rules, regex)
    ensures report.requiresApproval <==>
              HighRiskProduction(environment, a) || BreaksLargeTable(environment, a) || AtLeast(a, DependencyCount, 85.0)
    ensures report.level == if BreaksLargeTable(environment, a) then RiskLevel.Critical else a.level
    ensures |report.decisions| == 5
    ensures report.decisions[0].triggered <==> HighRiskProduction(environment, a)
    ensures report.decisions[1].triggered <==> BreaksLargeTable(environment, a)
    ensures report.decisions[2].triggered <==> AtLeast(a, IndexImpact, 85.0)
    ensures report.decisions[3].triggered <==> AtLeast(a, DependencyCount, 85.0)
    ensures report.decisions[4].triggered <==> a.confidence < 0.6
  {
    hide Document, Tests, Triggered, Highest, IsHighest, AtLeast, OneEach, HighRiskProduction, BreaksLargeTable, AllAdded;
    hide AsksApproval, DefaultRules, Titles, Added, Asked;
    var holds := Tests(Document(environment, ops, a), regex);
    DefaultTriggers(environment, ops, a, rules, regex);
    DefaultAsks(rules, holds, a.level, report.level);
    FiveRules(rules);
    forall i | 0 <= i < 5 ensures report.decisions[i].triggered == Triggered(rules[i], holds) {
    }
  }

  lemma FiveRules(rules: seq<Rule>)
    requires DefaultRules(rules)
    ensures |rules| == 5
  {
  }

  /** What an assessment reports: a factor reaches a bound exactly when it has a weight and its score reaches it. */
  lemma ReachedExactly(ctx: FactorContext, p: Policy, t: FactorType, n: real)
    requires t in ASSESSED
    ensures OneEach(AssessmentOf(ctx, p).factors)
    ensures AtLeast(AssessmentOf(ctx, p), t, n) <==>
            t in p.weights && p.weights[t] > 0.0 && Score(ctx, t) as real >= n
  {
    hide Score, OverallScore, Confidence, Notes, Factors, OneEach;
    var a := AssessmentOf(ctx, p);
    if t in p.weights && p.weights[t] > 0.0 {
      var f := MakeFactor(t, Score(ctx, t), p.weights[t]);
      FactorMade(ctx, p.weights, t, f);
      FactorsAre(ctx, p.weights, f);
    }
    if f :| f in a.factors && f.factor == t && f.score >= n {
      FactorsAre(ctx, p.weights, f);
    }
    FactorsAre(ctx, p.weights, MakeFactor(t, 0, 0.0));
  }

  lemma ShippedWeights()
    ensures var weights := ShippedPolicy().weights;
            && TableSize in weights && weights[TableSize] > 0.0
            && BackwardCompatibility in weights && weights[BackwardCompatibility] > 0.0
            && DependencyCount in weights && weights[DependencyCount] > 0.0
            && IndexImpact in weights && weights[IndexImpact] > 0.0
  {
  }

  /**
   * End to end under the default policy and rules: in production, a change that breaks or narrows what is in use, with a
   * table of 100 GiB or more among those it names, is critical and asks for approval.
   */
  lemma LargeBreakIsCritical(report: Pipeline.Report, ctx: FactorContext, rules: seq<Rule>, regex: Matcher)
    requires DefaultRules(rules)
    requires Pipeline.Judged(report, ctx.environment, ctx.operations, AssessmentOf(ctx, ShippedPolicy()), rules, regex)
    requires InProduction(ctx.environment) && HasBytes(ctx, 107_374_182_400)
    requires AnyOf(ctx.operations, {DropTable, DropColumn, AlterColumnType, RenameColumn, RenameTable, DropView, DropFunction,
                                    SetColumnNotNull, DropConstraint, DropIndex, DetachPartition})
    ensures report.level == RiskLevel.Critical && report.requiresApproval
  {
    hide AssessmentOf, ShippedPolicy, Pipeline.Judged, AtLeast, OneEach, Score, DefaultRules, InProduction, HasBytes, Collected;
    var p := ShippedPolicy();
    ShippedWeights();
    ReachedExactly(ctx, p, TableSize, 75.0);
    ReachedExactly(ctx, p, BackwardCompatibility, 55.0);
    SomethingLarge(ctx);
    SizeCauses(ctx);
    CompatibilityCauses(ctx);
    DefaultOutcome(report, ctx.environment, ctx.operations, AssessmentOf(ctx, p), rules, regex);
  }

  lemma SomethingLarge(ctx: FactorContext)
    requires HasBytes(ctx, 107_374_182_400)
    ensures exists full :: Collected(ctx, full)
  {
  }
}
