/** One assessment run: operations, blast radius, score, policy verdict. */
module Pipeline {
  import opened Prelude
  import opened Reals
  import opened Changes
  import opened Dependencies
  import opened DependencyGraphs
  import opened BlastRadii
  import GraphBuilding
  import opened RiskFactors
  import opened RiskGrowth
  import opened RiskEngine
  import RiskPolicy
  import opened RuleConditions

  class Change {
    const environment: string
    const targetDatabase: Option<string>
    var operations: seq<ChangeOperation>

    constructor (environment: string, targetDatabase: Option<string>)
      ensures this.environment == environment && this.targetDatabase == targetDatabase && operations == []
    {
      this.environment, this.targetDatabase, operations := environment, targetDatabase, [];
    }
  }

  /** What is known besides the change itself. */
  datatype Evidence = Evidence(
    tables: map<string, TableMetadata>,
    queryStats: map<string, QueryStatistics>,
    incidents: map<string, seq<string>>)

  datatype Report = Report(
    assessment: Assessment,
    decisions: seq<RiskPolicy.Decision>,
    level: RiskLevel,
    requiresApproval: bool,
    extras: seq<RiskPolicy.Extra>)

  datatype PipelineError = UnsupportedChangeType | BadRule(error: RiskPolicy.RuleError)

  const MAX_HOPS: int := 4

  /** The graph ids of the tables the operations name. */
  function NodeIds(database: Option<string>, ops: seq<DatabaseChange>): seq<string> {
    if ops == [] then
      []
    else
      var op := ops[|ops| - 1];
      NodeIds(database, ops[..|ops| - 1])
      + (if op.HasTable() then [GraphBuilding.TableNodeId(DatabaseName(database), op.schema, op.table.value)] else [])
  }

  function BlastFor(graph: Option<Network>, database: Option<string>, ops: seq<DatabaseChange>): Option<BlastRadius> {
    if graph.Some? && ops != [] then Some(BlastOf(graph.value, NodeIds(database, ops), MAX_HOPS)) else None
  }

  function ContextFor(environment: string, database: Option<string>, operations: seq<ChangeOperation>,
                      graph: Option<Network>, known: Evidence): FactorContext {
    var ops := DatabaseOperations(operations);
    FactorContext(environment, database, ops, known.tables, BlastFor(graph, database, ops), known.queryStats, known.incidents)
  }

  function Concat(lists: seq<seq<ChangeOperation>>): seq<ChangeOperation> {
    if lists == [] then [] else Concat(lists[..|lists| - 1]) + lists[|lists| - 1]
  }

  lemma ConcatNext(lists: seq<seq<ChangeOperation>>, last: seq<ChangeOperation>)
    ensures Concat(lists + [last]) == Concat(lists) + last
    ensures Concat([]) == []
  {
    assert (lists + [last])[..|lists|] == lists;
  }

  /** What the analyzers extract follows each other: the list for two groups of analyzers is that for one, then the other. */
  lemma {:induction false} ConcatAppend(a: seq<seq<ChangeOperation>>, b: seq<seq<ChangeOperation>>)
    ensures Concat(a + b) == Concat(a) + Concat(b)
  {
    hide Concat;
    if b == [] {
      ConcatNext(a, []);
      assert a + b == a;
    } else {
      var n := |b| - 1;
      assert a + b == a + b[..n] + [b[n]] && b == b[..n] + [b[n]];
      ConcatAppend(a, b[..n]);
      ConcatNext(a + b[..n], b[n]);
      ConcatNext(b[..n], b[n]);
      Regroup(Concat(a), Concat(b[..n]), b[n]);
    }
  }

  ghost function GraphOf(graph: DependencyGraph?): Option<Network>
    reads graph
  {
    if graph == null then None else Some(graph.Model())
  }

  /** What the rules make of an assessment of these operations. */
  ghost predicate Judged(report: Report, environment: string, ops: seq<DatabaseChange>, a: Assessment,
                         rules: seq<RiskPolicy.Rule>, regex: Matcher)
  {
    var tests := Tests(Document(environment, ops, a), regex);
    && report.assessment == a
    && RiskPolicy.Records(report.decisions, rules, tests, a.level)
    && RiskPolicy.IsHighest(rules, tests, a.level, report.level)
    && (report.requiresApproval <==> exists i :: 0 <= i < |rules| && RiskPolicy.AsksApproval(rules[i], tests))
    && report.extras == RiskPolicy.AllAdded(rules, tests)
  }

  method Judge(environment: string, ops: seq<DatabaseChange>, a: Assessment, engine: RiskPolicy.RiskPolicyEngine,
               regex: Matcher)
    returns (r: Result<Report, PipelineError>)
    ensures r.Ok? <==> RiskPolicy.Usable(engine.rules, Tests(Document(environment, ops, a), regex))
    ensures r.Ok? ==> Judged(r.value, environment, ops, a, engine.rules, regex)
    ensures r.Err? ==> r.error.BadRule?
  {
    hide Document, Tests;
    hide RiskPolicy.Usable, RiskPolicy.Records, RiskPolicy.IsHighest, RiskPolicy.AllAdded, RiskPolicy.AsksApproval;
    hide RiskPolicy.Climbs, RiskPolicy.Escalations;
    var verdict := engine.Evaluate(Tests(Document(environment, ops, a), regex), a.level);
    match verdict {
      case Err(e) => r := Err(BadRule(e));
      case Ok(v) => r := Ok(Report(a, v.decisions, v.level, v.requiresApproval, v.extras));
    }
  }

  method Gather(analyses: seq<seq<ChangeOperation>>) returns (operations: seq<ChangeOperation>)
    ensures operations == Concat(analyses)
  {
    operations := [];
    for n := 0 to |analyses|
      invariant operations == Concat(analyses[..n])
    {
      assert analyses[..n + 1][..n] == analyses[..n];
      operations := operations + analyses[n];
    }
    assert analyses[..|analyses|] == analyses;
  }

  /**
   * `analyses` holds what each applicable analyzer extracted; `regex` decides matches of regular expressions. The
   * change keeps the extracted operations, whatever the policy then says.
   */
  method Run(change: Change, analyses: seq<seq<ChangeOperation>>, graph: DependencyGraph?, known: Evidence,
             policy: Policy, engine: RiskPolicy.RiskPolicyEngine, regex: Matcher)
    returns (r: Result<Report, PipelineError>)
    requires graph != null ==> graph.Valid()
    modifies change
    ensures analyses == [] <==> r == Err(UnsupportedChangeType)
    ensures change.operations == if analyses == [] then old(change.operations) else Concat(analyses)
    ensures var ctx := ContextFor(change.environment, change.targetDatabase, Concat(analyses), GraphOf(graph), known);
            var a := AssessmentOf(ctx, policy);
            && (analyses != [] ==>
                  (r.Ok? <==> RiskPolicy.Usable(engine.rules,
                                                Tests(Document(change.environment, ctx.operations, a), regex))))
            && (r.Ok? ==> Judged(r.value, change.environment, ctx.operations, a, engine.rules, regex))
  {
    hide Judged, AssessmentOf, BlastOf, Document, Tests;
    if analyses == [] {
      return Err(UnsupportedChangeType);
    }
    var operations := Gather(analyses);
    change.operations := operations;
    var ops := DatabaseOperations(operations);
    var blast: Option<BlastRadius> := None;
    if graph != null && ops != [] {
      var analyzer := new BlastRadiusAnalyzer(graph, MAX_HOPS);
      var radius := analyzer.Analyze(NodeIds(change.targetDatabase, ops));
      blast := Some(radius);
    }
    var ctx := FactorContext(change.environment, change.targetDatabase, ops, known.tables, blast,
                             known.queryStats, known.incidents);
    var a := Assess(ctx, policy);
    r := Judge(change.environment, ops, a, engine, regex);
  }

  lemma {:induction false} NodeIdsAppend(database: Option<string>, a: seq<DatabaseChange>, b: seq<DatabaseChange>)
    ensures NodeIds(database, a + b) == NodeIds(database, a) + NodeIds(database, b)
  {
    if b == [] {
      assert a + b == a;
    } else {
      var n := |b| - 1;
      assert (a + b)[..|a| + n] == a + b[..n];
      NodeIdsAppend(database, a, b[..n]);
    }
  }

  /** Appending operations to a change extends its context: nothing that was found before is lost. */
  lemma ContextGrows(environment: string, database: Option<string>, a: seq<ChangeOperation>, more: seq<ChangeOperation>,
                     graph: Option<Network>, known: Evidence)
    ensures Appends(ContextFor(environment, database, a + more, graph, known),
                    ContextFor(environment, database, a, graph, known))
  {
    var p, q := DatabaseOperations(a), DatabaseOperations(more);
    DatabaseOperationsAppend(a, more);
    if graph.Some? {
      NodeIdsAppend(database, p, q);
      BlastGrows(graph.value, NodeIds(database, p), NodeIds(database, q), MAX_HOPS);
    }
  }

  /** The overall score the pipeline gives a change. */
  function PipelineScore(environment: string, database: Option<string>, operations: seq<ChangeOperation>,
                         graph: Option<Network>, known: Evidence, policy: Policy): real {
    AssessmentOf(ContextFor(environment, database, operations, graph, known), policy).overallScore
  }

  /**
   * End to end, for any graph, tables, statistics and incidents: appending operations to a change never lowers its
   * overall score under any accepted policy exactly when the append is safe.
   */
  lemma AppendingNeverLooksSafer(environment: string, database: Option<string>, a: seq<ChangeOperation>,
                                 more: seq<ChangeOperation>, graph: Option<Network>, known: Evidence)
    ensures (forall p: Policy :: p.Accepted() ==>
               PipelineScore(environment, database, a, graph, known, p)
               <= PipelineScore(environment, database, a + more, graph, known, p))
            <==> SafeToAppend(DatabaseOperations(a), DatabaseOperations(a + more), known.tables)
  {
    var x := ContextFor(environment, database, a, graph, known);
    var y := ContextFor(environment, database, a + more, graph, known);
    ContextGrows(environment, database, a, more, graph, known);
    AppendNeverLowersScore(x, y);
    forall p: Policy
      ensures PipelineScore(environment, database, a, graph, known, p) == OverallScore(x, p.weights)
      ensures PipelineScore(environment, database, a + more, graph, known, p) == OverallScore(y, p.weights)
    {
    }
  }

  /**
   * A change that already has an operation and a table with collected metadata never gets a lower score or a lower
   * score-derived level from further operations.
   */
  lemma EstablishedChangeNeverLooksSafer(environment: string, database: Option<string>, a: seq<ChangeOperation>,
                                         more: seq<ChangeOperation>, graph: Option<Network>, known: Evidence, p: Policy)
    requires p.Accepted()
    requires TargetTables(DatabaseOperations(a), known.tables) != []
    ensures PipelineScore(environment, database, a, graph, known, p)
            <= PipelineScore(environment, database, a + more, graph, known, p)
    ensures p.LevelFor(PipelineScore(environment, database, a, graph, known, p)).Rank()
            <= p.LevelFor(PipelineScore(environment, database, a + more, graph, known, p)).Rank()
  {
    hide ContextFor, SafeToAppend, TargetTables, OverallScore, Factors, Confidence, Notes, FactorsNoLower, Policy.Accepted;
    EstablishedIsSafe(DatabaseOperations(a), DatabaseOperations(a + more), known.tables);
    SafeAppendGrows(environment, database, a, more, graph, known, p);
  }

  lemma {:induction false} FactorsGrow(x: FactorContext, y: FactorContext, weights: map<FactorType, real>,
                                       types: seq<FactorType>)
    requires forall t :: Score(x, t) <= Score(y, t)
    ensures FactorsNoLower(Factors(x, weights, types), Factors(y, weights, types))
  {
    hide Score, Round2;
    if types != [] {
      var n := |types| - 1;
      FactorsGrow(x, y, weights, types[..n]);
      Round2Monotone(Clamp(Score(x, types[n]) as real), Clamp(Score(y, types[n]) as real));
    }
  }

  /** Every score, and the level, stay or grow when a safe append is made. */
  lemma SafeAppendGrows(environment: string, database: Option<string>, a: seq<ChangeOperation>,
                        more: seq<ChangeOperation>, graph: Option<Network>, known: Evidence, p: Policy)
    requires p.Accepted()
    requires SafeToAppend(DatabaseOperations(a), DatabaseOperations(a + more), known.tables)
    ensures NoLower(AssessmentOf(ContextFor(environment, database, a, graph, known), p),
                    AssessmentOf(ContextFor(environment, database, a + more, graph, known), p))
  {
    hide SafeToAppend, Appends, Factors, OverallScore, Confidence, Notes, Policy.Accepted;
    var x := ContextFor(environment, database, a, graph, known);
    var y := ContextFor(environment, database, a + more, graph, known);
    ContextGrows(environment, database, a, more, graph, known);
    SafeForEachFactor(x.operations, y.operations, x.tables);
    forall t ensures Score(x, t) <= Score(y, t) {
      FactorExact(x, y, t);
    }
    FactorsGrow(x, y, p.weights, COMPUTED);
    OverallGrows(x, y, p.weights);
    LevelMonotone(p, OverallScore(x, p.weights), OverallScore(y, p.weights));
  }

  /** An append to a change that already has an operation and a table with collected metadata is safe. */
  lemma EstablishedIsSafe(a: seq<DatabaseChange>, b: seq<DatabaseChange>, tables: map<string, TableMetadata>)
    requires TargetTables(a, tables) != []
    ensures SafeToAppend(a, b, tables)
  {
  }

  lemma VerdictRises(environment: string, rules: seq<RiskPolicy.Rule>, x: seq<DatabaseChange>, a: Assessment,
                     y: seq<DatabaseChange>, b: Assessment, regex: Matcher, before: Report, after: Report)
    requires Rising(rules) && NoLower(a, b) && x <= y
    requires Judged(before, environment, x, a, rules, regex) && Judged(after, environment, y, b, rules, regex)
    ensures before.level.Rank() <= after.level.Rank()
    ensures before.requiresApproval ==> after.requiresApproval
  {
    hide FactorsNoLower, Document, Tests, Rising;
    RisingStillHolds(environment, x, a, y, b, rules, regex);
    RiskPolicy.VerdictNeverFalls(rules, Tests(Document(environment, x, a), regex), Tests(Document(environment, y, b), regex),
                                 a.level, b.level, before.level, after.level);
  }

  /**
   * Under rules that set levels and ask for approval on upward conditions only, a safe append to a change - any append,
   * if the change already has a table with collected metadata - never lowers the final level and never takes back a
   * demand for approval.
   */
  lemma FinalLevelNeverFalls(environment: string, database: Option<string>, a: seq<ChangeOperation>,
                             more: seq<ChangeOperation>, graph: Option<Network>, known: Evidence, p: Policy,
                             rules: seq<RiskPolicy.Rule>, regex: Matcher, before: Report, after: Report)
    requires p.Accepted() && Rising(rules)
    requires || TargetTables(DatabaseOperations(a), known.tables) != []
             || SafeToAppend(DatabaseOperations(a), DatabaseOperations(a + more), known.tables)
    requires Judged(before, environment, DatabaseOperations(a),
                    AssessmentOf(ContextFor(environment, database, a, graph, known), p), rules, regex)
    requires Judged(after, environment, DatabaseOperations(a + more),
                    AssessmentOf(ContextFor(environment, database, a + more, graph, known), p), rules, regex)
    ensures before.level.Rank() <= after.level.Rank()
    ensures before.requiresApproval ==> after.requiresApproval
  {
    hide AssessmentOf, ContextFor, NoLower, Rising, Judged, SafeToAppend, Policy.Accepted;
    if TargetTables(DatabaseOperations(a), known.tables) != [] {
      EstablishedIsSafe(DatabaseOperations(a), DatabaseOperations(a + more), known.tables);
    }
    SafeAppendGrows(environment, database, a, more, graph, known, p);
    DatabaseOperationsAppend(a, more);
    VerdictRises(environment, rules, DatabaseOperations(a), AssessmentOf(ContextFor(environment, database, a, graph, known), p),
                 DatabaseOperations(a + more), AssessmentOf(ContextFor(environment, database, a + more, graph, known), p),
                 regex, before, after);
  }

  /** That holds of the rules that come with the repository. */
  lemma DefaultVerdictNeverFalls(environment: string, database: Option<string>, a: seq<ChangeOperation>,
                                 more: seq<ChangeOperation>, graph: Option<Network>, known: Evidence, p: Policy,
                                 rules: seq<RiskPolicy.Rule>, regex: Matcher, before: Report, after: Report)
    requires p.Accepted() && DefaultRules(rules)
    requires || TargetTables(DatabaseOperations(a), known.tables) != []
             || SafeToAppend(DatabaseOperations(a), DatabaseOperations(a + more), known.tables)
    requires Judged(before, environment, DatabaseOperations(a),
                    AssessmentOf(ContextFor(environment, database, a, graph, known), p), rules, regex)
    requires Judged(after, environment, DatabaseOperations(a + more),
                    AssessmentOf(ContextFor(environment, database, a + more, graph, known), p), rules, regex)
    ensures before.level.Rank() <= after.level.Rank()
    ensures before.requiresApproval ==> after.requiresApproval
  {
    hide AssessmentOf, ContextFor, Judged, SafeToAppend, Policy.Accepted, DefaultRules, Rising;
    DefaultRulesRise(rules);
    FinalLevelNeverFalls(environment, database, a, more, graph, known, p, rules, regex, before, after);
  }

  /**
   * On a graph the builder made, an assessment without a note about the change itself - notes on factors the policy
   * does not put in force aside - is at least as confident as the policy demands, and never less than 0.522.
   */
  lemma QuietAssessmentIsConfident(environment: string, database: Option<string>, operations: seq<ChangeOperation>,
                                   inputs: seq<GraphBuilding.Input>, known: Evidence, p: Policy)
    requires Quiet(ContextFor(environment, database, operations, Some(GraphBuilding.Build(inputs)), known), p)
    ensures var c := Confidence(ContextFor(environment, database, operations, Some(GraphBuilding.Build(inputs)), known));
            c >= p.minConfidence && c >= 0.522
  {
    hide Quiet, Confidence, EstimateConfidence, Collect;
    var g := GraphBuilding.Build(inputs);
    var ctx := ContextFor(environment, database, operations, Some(g), known);
    if ctx.blast.Some? {
      var ids := NodeIds(database, DatabaseOperations(operations));
      GraphBuilding.FourHopConfidence(inputs, Direction.Incoming, Downstream, ids, 4);
      EstimateIsRounded(Collect(g, Direction.Incoming, Downstream, ids, 4));
    }
    QuietMeansConfident(ctx, p);
  }

  lemma EstimateIsRounded(list: seq<AffectedResource>)
    ensures Round4(EstimateConfidence(list)) == EstimateConfidence(list)
  {
    if list == [] {
      RoundInteger(1);
    } else {
      Round4Idempotent(Sum(PathConfidences(list)) / |list| as real);
    }
  }
}
