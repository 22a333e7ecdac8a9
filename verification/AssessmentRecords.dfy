/** Storing assessments, with everything nested in them, as documents, and reading them back. */
module AssessmentRecords {
  import opened Prelude
  import opened Dependencies
  import opened BlastRadii
  import opened RiskFactors
  import opened RiskEngine
  import opened EnumNames
  import opened Serialization
  import RiskPolicy

  datatype Evidence = Evidence(description: string, source: string, data: map<string, Value>)

  datatype Factor = Factor(
    factorType: FactorType, severity: string, score: real, weight: real, reason: string, evidence: seq<Evidence>)

  datatype BlastRecord = BlastRecord(
    direct: seq<AffectedResource>, downstream: seq<AffectedResource>, upstream: seq<AffectedResource>,
    services: seq<string>, databases: seq<string>, tables: seq<string>, apis: seq<string>, pipelines: seq<string>,
    critical: seq<string>, scope: string, confidence: real)

  datatype Recommendation = Recommendation(
    id: string, title: string, detail: string, priority: Priority, category: string, relatedFactor: Option<FactorType>)

  datatype PolicyDecision = PolicyDecision(
    policyId: string, version: string, description: string, triggered: bool, severity: string,
    actionsApplied: map<string, Value>)

  datatype Note = Note(description: string, reason: string)

  datatype AssessmentRecord = AssessmentRecord(
    id: string, changeId: string, overallScore: real, riskLevel: RiskLevel, confidence: real, assessedAt: string,
    factors: seq<Factor>, evidence: seq<Evidence>, affectedResources: seq<AffectedResource>,
    dependencies: seq<Dependency>, blastRadius: Option<BlastRecord>, recommendations: seq<Recommendation>,
    policyDecisions: seq<PolicyDecision>, uncertainty: seq<Note>, explanation: Option<string>,
    policyVersion: Option<string>, requiresApproval: bool)

  function EvidenceTo(e: Evidence): Value {
    Dict(map[
      "description" := Str(e.description), "source" := Str(e.source), "data" := Dict(e.data)])
  }

  function EvidenceFrom(v: Value): Option<Evidence> {
    var description :- AsStr(Field(v, "description"));
    var source :- AsStr(Field(v, "source"));
    var data :- AsDict(GetOr(v, "data", Dict(map[])));
    Some(Evidence(description, source, data))
  }

  lemma EvidenceRoundTrip(e: Evidence)
    ensures EvidenceFrom(EvidenceTo(e)) == Some(e)
  {
  }

  lemma EvidenceListRoundTrip(xs: seq<Evidence>)
    ensures AsList(EvidenceFrom, List(MapSeq(EvidenceTo, xs))) == Some(xs)
  {
    hide EvidenceFrom, EvidenceTo;
    forall x | x in xs ensures EvidenceFrom(EvidenceTo(x)) == Some(x) {
      EvidenceRoundTrip(x);
    }
    ListRoundTrip(EvidenceTo, EvidenceFrom, xs);
  }

  function FactorTo(f: Factor): Value {
    Dict(map[
      "factor_type" := Str(FactorName(f.factorType)), "label" := Str(f.severity), "score" := Num(f.score),
      "weight" := Num(f.weight), "reason" := Str(f.reason), "evidence" := List(MapSeq(EvidenceTo, f.evidence))])
  }

  function FactorFrom(v: Value): Option<Factor> {
    var factorTypeName :- AsStr(Field(v, "factor_type"));
    var factorType :- ParseFactor(factorTypeName);
    var severity :- AsStr(Field(v, "label"));
    var score :- AsNum(Field(v, "score"));
    var weight :- AsNum(Field(v, "weight"));
    var reason :- AsStr(Field(v, "reason"));
    var evidence :- AsList(EvidenceFrom, GetOr(v, "evidence", List([])));
    Some(Factor(factorType, severity, score, weight, reason, evidence))
  }

  lemma FactorFields(f: Factor)
    ensures var d := FactorTo(f);
            && Field(d, "factor_type") == Str(FactorName(f.factorType))
            && Field(d, "label") == Str(f.severity)
            && Field(d, "score") == Num(f.score)
            && Field(d, "weight") == Num(f.weight)
            && Field(d, "reason") == Str(f.reason)
            && Field(d, "evidence") == List(MapSeq(EvidenceTo, f.evidence)) && Has(d, "evidence")
  {
    hide FactorName, EvidenceTo;
  }

  lemma FactorRoundTrip(f: Factor)
    ensures FactorFrom(FactorTo(f)) == Some(f)
  {
    hide FactorTo, Field, Has, FactorName, EvidenceTo, ParseFactor, EvidenceFrom, AsList;
    FactorFields(f);
    FactorNamed(f.factorType);
    EvidenceListRoundTrip(f.evidence);
  }

  function NodeTo(n: Node): Value {
    Dict(map[
      "id" := Str(n.id), "resource_type" := Str(ResourceTypeName(n.resourceType)), "name" := Str(n.name),
      "metadata" := Dict(n.metadata)])
  }

  function NodeFrom(v: Value): Option<Node> {
    var id :- AsStr(Field(v, "id"));
    var resourceTypeName :- AsStr(Field(v, "resource_type"));
    var resourceType :- ParseResourceType(resourceTypeName);
    var name :- AsStr(Field(v, "name"));
    var metadata :- AsDict(GetOr(v, "metadata", Dict(map[])));
    Some(Node(id, resourceType, name, metadata))
  }

  lemma NodeRoundTrip(n: Node)
    ensures NodeFrom(NodeTo(n)) == Some(n)
  {
    hide ResourceTypeName, ParseResourceType;
    ResourceTypeNamed(n.resourceType);
  }

  function OptStamp(t: Option<Timestamp>): Value {
    if t.Some? then Str(t.value) else Null
  }

  /** Anything false, the empty text included, counts as no timestamp. */
  function AsStamp(v: Value): Option<Option<Timestamp>> {
    if !Truthy(v) then Some(None) else if v.Str? then Some(Some(v.s)) else None
  }

  function EdgeTo(d: Dependency): Value {
    Dict(map[
      "source_id" := Str(d.sourceId), "target_id" := Str(d.targetId), "relationship" := Str(d.relationship),
      "source" := Str(ProvenanceName(d.source)), "confidence" := Num(d.confidence),
      "last_observed" := OptStamp(d.lastObserved), "metadata" := Dict(d.metadata)])
  }

  function EdgeFrom(v: Value): Option<Dependency> {
    var sourceId :- AsStr(Field(v, "source_id"));
    var targetId :- AsStr(Field(v, "target_id"));
    var relationship :- AsStr(Field(v, "relationship"));
    var sourceName :- AsStr(Field(v, "source"));
    var source :- ParseProvenance(sourceName);
    var confidence :- AsNum(GetOr(v, "confidence", Num(1.0)));
    var lastObserved :- AsStamp(Field(v, "last_observed"));
    var metadata :- AsDict(GetOr(v, "metadata", Dict(map[])));
    Some(Dependency(sourceId, targetId, relationship, source, confidence, lastObserved, metadata))
  }

  lemma EdgeRoundTrip(d: Dependency)
    ensures EdgeFrom(EdgeTo(d)) == Some(d)
  {
    hide ProvenanceName, ParseProvenance;
    ProvenanceNamed(d.source);
  }

  lemma EdgeListRoundTrip(xs: seq<Dependency>)
    ensures AsList(EdgeFrom, List(MapSeq(EdgeTo, xs))) == Some(xs)
  {
    hide EdgeFrom, EdgeTo;
    forall x | x in xs ensures EdgeFrom(EdgeTo(x)) == Some(x) {
      EdgeRoundTrip(x);
    }
    ListRoundTrip(EdgeTo, EdgeFrom, xs);
  }

  function AffectedTo(r: AffectedResource): Value {
    Dict(map[
      "resource" := NodeTo(r.resource), "impact" := Str(ImpactName(r.impact)), "hops" := Num(r.hops as real),
      "criticality" := Str(CriticalityName(r.criticality)), "production" := Bool(r.production),
      "via" := List(MapSeq(EdgeTo, r.via))])
  }

  function AffectedFrom(v: Value): Option<AffectedResource> {
    var resource :- NodeFrom(Field(v, "resource"));
    var impactName :- AsStr(Field(v, "impact"));
    var impact :- ParseImpact(impactName);
    var hops :- AsNat(Field(v, "hops"));
    var criticalityName :- AsStr(Field(v, "criticality"));
    var criticality :- ParseCriticality(criticalityName);
    var production :- AsBool(Field(v, "production"));
    var via :- AsList(EdgeFrom, GetOr(v, "via", List([])));
    Some(AffectedResource(resource, impact, hops, criticality, production, via))
  }

  lemma AffectedFields(r: AffectedResource)
    ensures var d := AffectedTo(r);
            && Field(d, "resource") == NodeTo(r.resource)
            && Field(d, "impact") == Str(ImpactName(r.impact))
            && Field(d, "hops") == Num(r.hops as real)
            && Field(d, "criticality") == Str(CriticalityName(r.criticality))
            && Field(d, "production") == Bool(r.production)
            && Field(d, "via") == List(MapSeq(EdgeTo, r.via)) && Has(d, "via")
  {
    hide NodeTo, ImpactName, CriticalityName, EdgeTo;
  }

  /** An affected resource is read back with its whole path. */
  lemma AffectedRoundTrip(r: AffectedResource)
    ensures AffectedFrom(AffectedTo(r)) == Some(r)
  {
    hide AffectedTo, Field, Has, NodeTo, EdgeTo, NodeFrom, EdgeFrom, AsList;
    AffectedFields(r);
    NodeRoundTrip(r.resource);
    EdgeListRoundTrip(r.via);
  }

  lemma AffectedListRoundTrip(xs: seq<AffectedResource>)
    ensures AsList(AffectedFrom, List(MapSeq(AffectedTo, xs))) == Some(xs)
  {
    hide AffectedFrom, AffectedTo;
    forall x | x in xs ensures AffectedFrom(AffectedTo(x)) == Some(x) {
      AffectedRoundTrip(x);
    }
    ListRoundTrip(AffectedTo, AffectedFrom, xs);
  }

  function BlastTo(b: BlastRecord): Value {
    Dict(map[
      "direct_impact" := List(MapSeq(AffectedTo, b.direct)),
      "downstream_impact" := List(MapSeq(AffectedTo, b.downstream)),
      "upstream_dependencies" := List(MapSeq(AffectedTo, b.upstream)), "affected_services" := Strs(b.services),
      "affected_databases" := Strs(b.databases), "affected_tables" := Strs(b.tables),
      "affected_apis" := Strs(b.apis), "affected_data_pipelines" := Strs(b.pipelines),
      "critical_dependencies" := Strs(b.critical), "estimated_scope" := Str(b.scope),
      "confidence" := Num(b.confidence)])
  }

  function BlastFrom(v: Value): Option<BlastRecord> {
    var direct :- AsList(AffectedFrom, GetOr(v, "direct_impact", List([])));
    var downstream :- AsList(AffectedFrom, GetOr(v, "downstream_impact", List([])));
    var upstream :- AsList(AffectedFrom, GetOr(v, "upstream_dependencies", List([])));
    var services :- AsList(AsStr, GetOr(v, "affected_services", List([])));
    var databases :- AsList(AsStr, GetOr(v, "affected_databases", List([])));
    var tables :- AsList(AsStr, GetOr(v, "affected_tables", List([])));
    var apis :- AsList(AsStr, GetOr(v, "affected_apis", List([])));
    var pipelines :- AsList(AsStr, GetOr(v, "affected_data_pipelines", List([])));
    var critical :- AsList(AsStr, GetOr(v, "critical_dependencies", List([])));
    var scope :- AsStr(GetOr(v, "estimated_scope", Str("unknown")));
    var confidence :- AsNum(GetOr(v, "confidence", Num(0.0)));
    Some(BlastRecord(
      direct, downstream, upstream, services, databases, tables, apis, pipelines, critical, scope, confidence))
  }

  lemma BlastFields(b: BlastRecord)
    ensures var d := BlastTo(b);
            && Field(d, "direct_impact") == List(MapSeq(AffectedTo, b.direct)) && Has(d, "direct_impact")
            && Field(d, "downstream_impact") == List(MapSeq(AffectedTo, b.downstream)) && Has(d, "downstream_impact")
            && Field(d, "upstream_dependencies") == List(MapSeq(AffectedTo, b.upstream)) && Has(d, "upstream_dependencies")
            && Field(d, "affected_services") == Strs(b.services) && Has(d, "affected_services")
            && Field(d, "affected_databases") == Strs(b.databases) && Has(d, "affected_databases")
            && Field(d, "affected_tables") == Strs(b.tables) && Has(d, "affected_tables")
            && Field(d, "affected_apis") == Strs(b.apis) && Has(d, "affected_apis")
            && Field(d, "affected_data_pipelines") == Strs(b.pipelines) && Has(d, "affected_data_pipelines")
            && Field(d, "critical_dependencies") == Strs(b.critical) && Has(d, "critical_dependencies")
            && Field(d, "estimated_scope") == Str(b.scope) && Has(d, "estimated_scope")
            && Field(d, "confidence") == Num(b.confidence) && Has(d, "confidence")
  {
    hide AffectedTo, Strs;
  }

  /** The blast radius is read back with its three lists and its rollups. */
  lemma BlastRoundTrip(b: BlastRecord)
    ensures BlastFrom(BlastTo(b)) == Some(b)
  {
    hide BlastTo, Field, Has, AffectedTo, Strs, AffectedFrom, AsList;
    BlastFields(b);
    AffectedListRoundTrip(b.direct);
    AffectedListRoundTrip(b.downstream);
    AffectedListRoundTrip(b.upstream);
    StrsRoundTrip(b.services);
    StrsRoundTrip(b.databases);
    StrsRoundTrip(b.tables);
    StrsRoundTrip(b.apis);
    StrsRoundTrip(b.pipelines);
    StrsRoundTrip(b.critical);
  }

  function OptFactor(t: Option<FactorType>): Value {
    if t.Some? then Str(FactorName(t.value)) else Null
  }

  function AsOptFactor(v: Value): Option<Option<FactorType>> {
    if !Truthy(v) then
      Some(None)
    else
      var name :- AsStr(v);
      var t :- ParseFactor(name);
      Some(Some(t))
  }

  lemma OptFactorRoundTrip(t: Option<FactorType>)
    ensures AsOptFactor(OptFactor(t)) == Some(t)
  {
    hide FactorName, ParseFactor;
    if t.Some? {
      FactorNamed(t.value);
    }
  }

  function RecommendationTo(r: Recommendation): Value {
    Dict(map[
      "id" := Str(r.id), "title" := Str(r.title), "detail" := Str(r.detail),
      "priority" := Str(PriorityName(r.priority)), "category" := Str(r.category),
      "related_factor" := OptFactor(r.relatedFactor)])
  }

  function RecommendationFrom(v: Value): Option<Recommendation> {
    var id :- AsStr(Field(v, "id"));
    var title :- AsStr(Field(v, "title"));
    var detail :- AsStr(Field(v, "detail"));
    var priorityName :- AsStr(Field(v, "priority"));
    var priority :- ParsePriority(priorityName);
    var category :- AsStr(Field(v, "category"));
    var relatedFactor :- AsOptFactor(Field(v, "related_factor"));
    Some(Recommendation(id, title, detail, priority, category, relatedFactor))
  }

  lemma RecommendationFields(r: Recommendation)
    ensures var d := RecommendationTo(r);
            && Field(d, "id") == Str(r.id)
            && Field(d, "title") == Str(r.title)
            && Field(d, "detail") == Str(r.detail)
            && Field(d, "priority") == Str(PriorityName(r.priority))
            && Field(d, "category") == Str(r.category)
            && Field(d, "related_factor") == OptFactor(r.relatedFactor)
  {
    hide PriorityName, OptFactor;
  }

  lemma RecommendationRoundTrip(r: Recommendation)
    ensures RecommendationFrom(RecommendationTo(r)) == Some(r)
  {
    hide RecommendationTo, Field, Has, OptFactor, AsOptFactor;
    RecommendationFields(r);
    OptFactorRoundTrip(r.relatedFactor);
  }

  function DecisionTo(d: PolicyDecision): Value {
    Dict(map[
      "policy_id" := Str(d.policyId), "version" := Str(d.version), "description" := Str(d.description),
      "triggered" := Bool(d.triggered), "severity" := Str(d.severity), "actions_applied" := Dict(d.actionsApplied)])
  }

  function DecisionFrom(v: Value): Option<PolicyDecision> {
    var policyId :- AsStr(Field(v, "policy_id"));
    var version :- AsStr(Field(v, "version"));
    var description :- AsStr(Field(v, "description"));
    var triggered :- AsBool(Field(v, "triggered"));
    var severity :- AsStr(Field(v, "severity"));
    var actionsApplied :- AsDict(GetOr(v, "actions_applied", Dict(map[])));
    Some(PolicyDecision(policyId, version, description, triggered, severity, actionsApplied))
  }

  lemma DecisionRoundTrip(d: PolicyDecision)
    ensures DecisionFrom(DecisionTo(d)) == Some(d)
  {
  }

  function NoteTo(u: Note): Value {
    Dict(map[
      "description" := Str(u.description), "reason" := Str(u.reason)])
  }

  function NoteFrom(v: Value): Option<Note> {
    var description :- AsStr(Field(v, "description"));
    var reason :- AsStr(Field(v, "reason"));
    Some(Note(description, reason))
  }

  lemma NoteRoundTrip(u: Note)
    ensures NoteFrom(NoteTo(u)) == Some(u)
  {
  }

  function OptBlast(b: Option<BlastRecord>): Value {
    if b.Some? then BlastTo(b.value) else Null
  }

  function AsOptBlast(v: Value): Option<Option<BlastRecord>> {
    if !Truthy(v) then
      Some(None)
    else
      var b :- BlastFrom(v);
      Some(Some(b))
  }

  lemma OptBlastRoundTrip(b: Option<BlastRecord>)
    ensures AsOptBlast(OptBlast(b)) == Some(b)
  {
    hide BlastFrom, BlastTo;
    if b.Some? {
      BlastRoundTrip(b.value);
      BlastIsTruthy(b.value);
    }
  }

  lemma BlastIsTruthy(b: BlastRecord)
    ensures Truthy(BlastTo(b))
  {
    assert "confidence" in BlastTo(b).fields;
  }

  function AssessmentTo(a: AssessmentRecord): Value {
    Dict(map[
      "id" := Str(a.id), "change_id" := Str(a.changeId), "overall_score" := Num(a.overallScore),
      "risk_level" := Str(LevelName(a.riskLevel)), "confidence" := Num(a.confidence),
      "assessed_at" := Str(a.assessedAt), "factors" := List(MapSeq(FactorTo, a.factors)),
      "evidence" := List(MapSeq(EvidenceTo, a.evidence)),
      "affected_resources" := List(MapSeq(AffectedTo, a.affectedResources)),
      "dependencies" := List(MapSeq(EdgeTo, a.dependencies)), "blast_radius" := OptBlast(a.blastRadius),
      "recommendations" := List(MapSeq(RecommendationTo, a.recommendations)),
      "policy_decisions" := List(MapSeq(DecisionTo, a.policyDecisions)),
      "uncertainty" := List(MapSeq(NoteTo, a.uncertainty)), "explanation" := OptStr(a.explanation),
      "policy_version" := OptStr(a.policyVersion), "requires_approval" := Bool(a.requiresApproval)])
  }

  function AssessmentFrom(v: Value): Option<AssessmentRecord> {
    var id :- AsStr(Field(v, "id"));
    var changeId :- AsStr(Field(v, "change_id"));
    var overallScore :- AsNum(Field(v, "overall_score"));
    var riskLevelName :- AsStr(Field(v, "risk_level"));
    var riskLevel :- RiskPolicy.ParseLevel(riskLevelName);
    var confidence :- AsNum(Field(v, "confidence"));
    var assessedAt :- AsStr(Field(v, "assessed_at"));
    var factors :- AsList(FactorFrom, GetOr(v, "factors", List([])));
    var evidence :- AsList(EvidenceFrom, GetOr(v, "evidence", List([])));
    var affectedResources :- AsList(AffectedFrom, GetOr(v, "affected_resources", List([])));
    var dependencies :- AsList(EdgeFrom, GetOr(v, "dependencies", List([])));
    var blastRadius :- AsOptBlast(Field(v, "blast_radius"));
    var recommendations :- AsList(RecommendationFrom, GetOr(v, "recommendations", List([])));
    var policyDecisions :- AsList(DecisionFrom, GetOr(v, "policy_decisions", List([])));
    var uncertainty :- AsList(NoteFrom, GetOr(v, "uncertainty", List([])));
    var explanation :- AsOptStr(Field(v, "explanation"));
    var policyVersion :- AsOptStr(Field(v, "policy_version"));
    var requiresApproval :- AsBool(GetOr(v, "requires_approval", Bool(false)));
    Some(AssessmentRecord(
      id, changeId, overallScore, riskLevel, confidence, assessedAt, factors, evidence, affectedResources,
      dependencies, blastRadius, recommendations, policyDecisions, uncertainty, explanation, policyVersion,
      requiresApproval))
  }

  lemma AssessmentHeading(a: AssessmentRecord)
    ensures var d := AssessmentTo(a);
            && Field(d, "id") == Str(a.id)
            && Field(d, "change_id") == Str(a.changeId)
            && Field(d, "overall_score") == Num(a.overallScore)
            && Field(d, "risk_level") == Str(LevelName(a.riskLevel))
            && Field(d, "confidence") == Num(a.confidence)
  {
    hide LevelName, FactorTo, EvidenceTo, AffectedTo, EdgeTo, OptBlast, RecommendationTo, DecisionTo, NoteTo, OptStr;
  }

  lemma AssessmentFindings(a: AssessmentRecord)
    ensures var d := AssessmentTo(a);
            && Field(d, "assessed_at") == Str(a.assessedAt)
            && Field(d, "factors") == List(MapSeq(FactorTo, a.factors)) && Has(d, "factors")
            && Field(d, "evidence") == List(MapSeq(EvidenceTo, a.evidence)) && Has(d, "evidence")
            && Field(d, "affected_resources") == List(MapSeq(AffectedTo, a.affectedResources)) && Has(d, "affected_resources")
            && Field(d, "dependencies") == List(MapSeq(EdgeTo, a.dependencies)) && Has(d, "dependencies")
  {
    hide LevelName, FactorTo, EvidenceTo, AffectedTo, EdgeTo, OptBlast, RecommendationTo, DecisionTo, NoteTo, OptStr;
  }

  lemma AssessmentAdvice(a: AssessmentRecord)
    ensures var d := AssessmentTo(a);
            && Field(d, "blast_radius") == OptBlast(a.blastRadius)
            && Field(d, "recommendations") == List(MapSeq(RecommendationTo, a.recommendations)) && Has(d, "recommendations")
            && Field(d, "policy_decisions") == List(MapSeq(DecisionTo, a.policyDecisions)) && Has(d, "policy_decisions")
            && Field(d, "uncertainty") == List(MapSeq(NoteTo, a.uncertainty)) && Has(d, "uncertainty")
            && Field(d, "explanation") == OptStr(a.explanation)
            && Field(d, "policy_version") == OptStr(a.policyVersion)
            && Field(d, "requires_approval") == Bool(a.requiresApproval) && Has(d, "requires_approval")
  {
    hide LevelName, FactorTo, EvidenceTo, AffectedTo, EdgeTo, OptBlast, RecommendationTo, DecisionTo, NoteTo, OptStr;
  }

  lemma FactorListRoundTrip(xs: seq<Factor>)
    ensures AsList(FactorFrom, List(MapSeq(FactorTo, xs))) == Some(xs)
  {
    hide FactorTo, FactorFrom;
    forall x | x in xs ensures FactorFrom(FactorTo(x)) == Some(x) {
      FactorRoundTrip(x);
    }
    ListRoundTrip(FactorTo, FactorFrom, xs);
  }

  lemma RecommendationListRoundTrip(xs: seq<Recommendation>)
    ensures AsList(RecommendationFrom, List(MapSeq(RecommendationTo, xs))) == Some(xs)
  {
    hide RecommendationTo, RecommendationFrom;
    forall x | x in xs ensures RecommendationFrom(RecommendationTo(x)) == Some(x) {
      RecommendationRoundTrip(x);
    }
    ListRoundTrip(RecommendationTo, RecommendationFrom, xs);
  }

  lemma DecisionListRoundTrip(xs: seq<PolicyDecision>)
    ensures AsList(DecisionFrom, List(MapSeq(DecisionTo, xs))) == Some(xs)
  {
    hide DecisionTo, DecisionFrom;
    forall x | x in xs ensures DecisionFrom(DecisionTo(x)) == Some(x) {
      DecisionRoundTrip(x);
    }
    ListRoundTrip(DecisionTo, DecisionFrom, xs);
  }

  lemma NoteListRoundTrip(xs: seq<Note>)
    ensures AsList(NoteFrom, List(MapSeq(NoteTo, xs))) == Some(xs)
  {
    hide NoteTo, NoteFrom;
    forall x | x in xs ensures NoteFrom(NoteTo(x)) == Some(x) {
      NoteRoundTrip(x);
    }
    ListRoundTrip(NoteTo, NoteFrom, xs);
  }

  /** Every assessment is read back as it was stored, however long its nested lists. */
  lemma AssessmentRoundTrip(a: AssessmentRecord)
    ensures AssessmentFrom(AssessmentTo(a)) == Some(a)
  {
    hide AssessmentTo, Field, Has, FactorTo, EvidenceTo, AffectedTo, EdgeTo, OptBlast, RecommendationTo;
    hide DecisionTo, NoteTo, OptStr, FactorFrom, AsList, EvidenceFrom, AffectedFrom, EdgeFrom, AsOptBlast;
    hide RecommendationFrom, DecisionFrom, NoteFrom, AsOptStr;
    AssessmentHeading(a);
    AssessmentFindings(a);
    AssessmentAdvice(a);
    FactorListRoundTrip(a.factors);
    EvidenceListRoundTrip(a.evidence);
    AffectedListRoundTrip(a.affectedResources);
    EdgeListRoundTrip(a.dependencies);
    OptBlastRoundTrip(a.blastRadius);
    RecommendationListRoundTrip(a.recommendations);
    DecisionListRoundTrip(a.policyDecisions);
    NoteListRoundTrip(a.uncertainty);
    OptionsRead(a.explanation, None);
    OptionsRead(a.policyVersion, None);
  }
}
