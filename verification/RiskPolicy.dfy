/** Declarative rules applied after scoring: they may raise the level and ask for approval, never lower anything. */
module RiskPolicy {
  import opened Prelude
  import opened RiskEngine
  import opened EnumNames

  datatype Condition = Condition(field: string, operator: string, value: Value)

  /** A recommendation as a rule words it; any part may be missing. */
  datatype Advice = Advice(
    title: Option<string>,
    detail: Option<string>,
    priority: Option<string>,
    category: Option<string>)

  datatype Extra = Extra(title: string, detail: string, priority: Priority, category: string)

  datatype Rule = Rule(
    id: string,
    version: string,
    description: string,
    severity: string,
    conditions: seq<Condition>,
    setLevel: Option<string>,
    requireApproval: bool,
    advice: seq<Advice>)

  /** What one rule did; `recommended` lists the titles it added. */
  datatype Decision = Decision(
    rule: Rule,
    triggered: bool,
    escalatedTo: Option<RiskLevel>,
    approval: bool,
    recommended: seq<string>)

  datatype RuleError = InvalidLevel(rule: Rule) | ConditionRaised(rule: Rule)

  datatype Verdict = Verdict(decisions: seq<Decision>, level: RiskLevel, requiresApproval: bool, extras: seq<Extra>)

  /** The outcome of testing a condition on the assessed document; none if the test raises an error. */
  type Outcomes = Condition -> Option<bool>

  function ParseLevel(s: string): Option<RiskLevel> {
    if s == "low" then Some(Low)
    else if s == "medium" then Some(Medium)
    else if s == "high" then Some(High)
    else if s == "critical" then Some(RiskLevel.Critical)
    else None
  }

  /** Python's `all` over the conditions: the first one that does not hold, or raises, settles it. */
  function AllHold(conditions: seq<Condition>, holds: Outcomes): Option<bool> {
    if conditions == [] then Some(true)
    else
      match holds(conditions[0])
      case None => None
      case Some(met) => if met then AllHold(conditions[1..], holds) else Some(false)
  }

  lemma {:induction false} AllHoldExactly(conditions: seq<Condition>, holds: Outcomes)
    ensures AllHold(conditions, holds) == Some(true) <==>
            forall i :: 0 <= i < |conditions| ==> holds(conditions[i]) == Some(true)
    ensures AllHold(conditions, holds) == None <==>
            exists i :: 0 <= i < |conditions| && holds(conditions[i]) == None
                        && forall j :: 0 <= j < i ==> holds(conditions[j]) == Some(true)
  {
    if conditions != [] {
      var rest := conditions[1..];
      AllHoldExactly(rest, holds);
      if i :| 0 <= i < |rest| && holds(rest[i]) == None && forall j :: 0 <= j < i ==> holds(rest[j]) == Some(true) {
        assert holds(conditions[0]) == Some(true) ==> forall j :: 0 < j < i + 1 ==> holds(conditions[j]) == Some(true) by {
          assert forall j :: 0 < j < i + 1 ==> conditions[j] == rest[j - 1];
        }
        assert conditions[i + 1] == rest[i];
      }
      if i :| 0 < i < |conditions| && holds(conditions[i]) == None
              && forall j :: 0 <= j < i ==> holds(conditions[j]) == Some(true) {
        assert rest[i - 1] == conditions[i];
        assert forall j :: 0 <= j < i - 1 ==> holds(rest[j]) == holds(conditions[j + 1]);
      }
    }
  }

  predicate Triggered(rule: Rule, holds: Outcomes) {
    AllHold(rule.conditions, holds) == Some(true)
  }

  /** The level a triggered rule asks for. */
  function Asked(rule: Rule, holds: Outcomes): Option<RiskLevel> {
    if Triggered(rule, holds) && rule.setLevel.Some? then ParseLevel(rule.setLevel.value) else None
  }

  /** Testing a condition raises, or the triggered rule names a level that does not exist. */
  predicate Broken(rule: Rule, holds: Outcomes) {
    || AllHold(rule.conditions, holds) == None
    || (Triggered(rule, holds) && rule.setLevel.Some? && ParseLevel(rule.setLevel.value).None?)
  }

  predicate AsksApproval(rule: Rule, holds: Outcomes) {
    Triggered(rule, holds) && rule.requireApproval
  }

  ghost predicate Usable(rules: seq<Rule>, holds: Outcomes) {
    forall r :: r in rules ==> !Broken(r, holds)
  }

  /** A recommendation without title or detail, or with a priority that does not exist, is passed over. */
  function ExtraOf(a: Advice): seq<Extra> {
    var priority := ParsePriority(a.priority.GetOr("recommended"));
    if a.title.Some? && a.detail.Some? && priority.Some? then
      [Extra(a.title.value, a.detail.value, priority.value, a.category.GetOr("review"))]
    else
      []
  }

  function Extras(advice: seq<Advice>): seq<Extra> {
    if advice == [] then []
    else Extras(advice[..|advice| - 1]) + ExtraOf(advice[|advice| - 1])
  }

  function Titles(extras: seq<Extra>): seq<string> {
    seq(|extras|, i requires 0 <= i < |extras| => extras[i].title)
  }

  /** The recommendations of a rule, if it is triggered. */
  function Added(rule: Rule, holds: Outcomes): seq<Extra> {
    if Triggered(rule, holds) then Extras(rule.advice) else []
  }

  /** The recommendations of the triggered rules, in order. */
  function AllAdded(rules: seq<Rule>, holds: Outcomes): seq<Extra> {
    if rules == [] then []
    else AllAdded(rules[..|rules| - 1], holds) + Added(rules[|rules| - 1], holds)
  }

  lemma ExtrasNext(advice: seq<Advice>, a: Advice)
    ensures Extras(advice + [a]) == Extras(advice) + ExtraOf(a)
  {
    assert (advice + [a])[..|advice|] == advice;
  }

  lemma {:induction false} ExtrasAppend(a: seq<Advice>, b: seq<Advice>)
    ensures Extras(a + b) == Extras(a) + Extras(b)
  {
    if b == [] {
      assert a + b == a && Extras(b) == [];
    } else {
      hide Extras, ExtraOf;
      var n := |b| - 1;
      assert a + b == a + b[..n] + [b[n]] && b == b[..n] + [b[n]];
      ExtrasAppend(a, b[..n]);
      ExtrasNext(a + b[..n], b[n]);
      ExtrasNext(b[..n], b[n]);
      Regroup(Extras(a), Extras(b[..n]), ExtraOf(b[n]));
    }
  }

  /** The names of the three priorities. */
  predicate IsPriority(p: Priority, name: string) {
    match p
    case Required => name == "required"
    case Recommended => name == "recommended"
    case Optional => name == "optional"
  }

  /** A recommendation is kept if it has a title, a detail and a known priority; what it leaves out has a default. */
  lemma ExtrasOfOne(a: Advice, e: Extra)
    ensures Extras([a]) == [e] <==>
            && a.title == Some(e.title) && a.detail == Some(e.detail)
            && (a.priority.Some? ==> IsPriority(e.priority, a.priority.value))
            && (a.priority.None? ==> e.priority == Recommended)
            && (a.category.Some? ==> e.category == a.category.value)
            && (a.category.None? ==> e.category == "review")
    ensures Extras([a]) != [] <==>
            && a.title.Some? && a.detail.Some?
            && (a.priority.Some? ==> a.priority.value in ["required", "recommended", "optional"])
  {
    assert [a][..0] == [];
    assert Extras([a]) == ExtraOf(a);
  }

  lemma AllAddedNext(rules: seq<Rule>, r: Rule, holds: Outcomes)
    ensures AllAdded(rules + [r], holds) == AllAdded(rules, holds) + Added(r, holds)
  {
    assert (rules + [r])[..|rules|] == rules;
  }

  /** The recommendations of the triggered rules, rule after rule. */
  lemma {:induction false} AllAddedAppend(a: seq<Rule>, b: seq<Rule>, holds: Outcomes)
    ensures AllAdded(a + b, holds) == AllAdded(a, holds) + AllAdded(b, holds)
  {
    if b == [] {
      assert a + b == a && AllAdded(b, holds) == [];
    } else {
      hide AllAdded, Added;
      var n := |b| - 1;
      assert a + b == a + b[..n] + [b[n]] && b == b[..n] + [b[n]];
      AllAddedAppend(a, b[..n], holds);
      AllAddedNext(a + b[..n], b[n], holds);
      AllAddedNext(b[..n], b[n], holds);
      Regroup(AllAdded(a, holds), AllAdded(b[..n], holds), Added(b[n], holds));
    }
  }

  lemma AllAddedOfOne(rule: Rule, holds: Outcomes)
    ensures AllAdded([rule], holds) == if Met(rule, holds) then Extras(rule.advice) else []
  {
    hide Extras, AllHold;
    AllHoldExactly(rule.conditions, holds);
    assert [rule][..0] == [];
  }

  /** `level` is the largest of the assessed level and every level a triggered rule asks for. */
  ghost predicate IsHighest(rules: seq<Rule>, holds: Outcomes, assessed: RiskLevel, level: RiskLevel) {
    && assessed.Rank() <= level.Rank()
    && (forall r :: r in rules && Asked(r, holds).Some? ==> Asked(r, holds).value.Rank() <= level.Rank())
    && (level == assessed || exists r :: r in rules && Asked(r, holds) == Some(level))
  }

  function Highest(rules: seq<Rule>, holds: Outcomes, assessed: RiskLevel): (level: RiskLevel)
    ensures IsHighest(rules, holds, assessed, level)
  {
    if rules == [] then assessed
    else
      var n := |rules| - 1;
      var before, asked := Highest(rules[..n], holds, assessed), Asked(rules[n], holds);
      assert rules == rules[..n] + [rules[n]];
      assert forall r :: r in rules <==> r in rules[..n] || r == rules[n];
      if asked.Some? && asked.value.Rank() > before.Rank() then asked.value else before
  }

  /** The levels the decisions record, in order. */
  function Escalations(decisions: seq<Decision>): seq<RiskLevel> {
    if decisions == [] then
      []
    else
      var d := decisions[|decisions| - 1];
      Escalations(decisions[..|decisions| - 1]) + (if d.escalatedTo.Some? then [d.escalatedTo.value] else [])
  }

  /** The recorded levels climb strictly from above the assessed level to the final one. */
  ghost predicate Climbs(levels: seq<RiskLevel>, assessed: RiskLevel, final: RiskLevel) {
    && (forall i, j :: 0 <= i < j < |levels| ==> levels[i].Rank() < levels[j].Rank())
    && (forall i :: 0 <= i < |levels| ==> assessed.Rank() < levels[i].Rank() <= final.Rank())
    && final == if levels == [] then assessed else levels[|levels| - 1]
  }

  /** What a rule does once the level stands at `level`: it escalates exactly when it asks for more. */
  function DecisionOf(rule: Rule, holds: Outcomes, level: RiskLevel): Decision {
    var asked := Asked(rule, holds);
    Decision(rule, Triggered(rule, holds), if asked.Some? && asked.value.Rank() > level.Rank() then asked else None,
             AsksApproval(rule, holds), Titles(Added(rule, holds)))
  }

  /** One decision per rule, each made at the highest of the assessed level and what the rules before it asked for. */
  ghost predicate Records(decisions: seq<Decision>, rules: seq<Rule>, holds: Outcomes, assessed: RiskLevel) {
    && |decisions| == |rules|
    && forall i :: 0 <= i < |rules| ==>
         decisions[i] == DecisionOf(rules[i], holds, Highest(rules[..i], holds, assessed))
  }

  class RiskPolicyEngine {
    var rules: seq<Rule>

    constructor (rules: seq<Rule>)
      ensures this.rules == rules
    {
      this.rules := rules;
    }

    method Evaluate(holds: Outcomes, assessed: RiskLevel) returns (r: Result<Verdict, RuleError>)
      ensures r.Ok? <==> Usable(rules, holds)
      ensures r.Err? ==>
        exists n :: 0 <= n < |rules| && r.error.rule == rules[n] && Broken(rules[n], holds) && Usable(rules[..n], holds)
      ensures r.Ok? ==>
        && Records(r.value.decisions, rules, holds, assessed)
        && IsHighest(rules, holds, assessed, r.value.level)
        && Climbs(Escalations(r.value.decisions), assessed, r.value.level)
        && (r.value.requiresApproval <==> exists i :: 0 <= i < |rules| && AsksApproval(rules[i], holds))
        && r.value.extras == AllAdded(rules, holds)
    {
      hide IsHighest, Highest, Climbs, Escalations, Titles, Added, Records, Asked, Triggered, Broken, AsksApproval;
      var decisions, level, approval, extras := [], assessed, false, [];
      VerdictStart(holds, assessed);
      for n := 0 to |rules|
        invariant Usable(rules[..n], holds)
        invariant Records(decisions, rules[..n], holds, assessed)
        invariant level == Highest(rules[..n], holds, assessed) && assessed.Rank() <= level.Rank()
        invariant Climbs(Escalations(decisions), assessed, level)
        invariant approval <==> exists i :: 0 <= i < n && AsksApproval(rules[i], holds)
        invariant extras == AllAdded(rules[..n], holds)
      {
        assert rules[..n + 1] == rules[..n] + [rules[n]] && rules[..n + 1][..n] == rules[..n];
        var considered := Consider(rules[n], holds, level);
        if considered.Err? {
          return Err(considered.error);
        }
        var (decision, added) := considered.value;
        HighestNext(rules, holds, assessed, n);
        RecordNext(decisions, rules, holds, assessed, n, decision);
        ClimbNext(decisions, decision, assessed, level);
        decisions := decisions + [decision];
        extras := extras + added;
        approval := approval || decision.approval;
        if decision.escalatedTo.Some? {
          level := decision.escalatedTo.value;
        }
      }
      assert rules[..|rules|] == rules;
      HighestIs(rules, holds, assessed);
      r := Ok(Verdict(decisions, level, approval, extras));
    }

    /** One turn of the loop: test a rule and, if it is triggered, carry out its actions. */
    method Consider(rule: Rule, holds: Outcomes, level: RiskLevel)
      returns (r: Result<(Decision, seq<Extra>), RuleError>)
      ensures r.Ok? <==> !Broken(rule, holds)
      ensures r.Err? ==> r.error.rule == rule
      ensures r.Ok? ==> r.value == (DecisionOf(rule, holds, level), Added(rule, holds))
    {
      hide AllHold, ParseLevel, Extras, Titles;
      var met := AllHold(rule.conditions, holds);
      if met.None? {
        return Err(ConditionRaised(rule));
      }
      if !met.value {
        return Ok((Decision(rule, false, None, false, Titles([])), []));
      }
      var escalated: Option<RiskLevel> := None;
      if rule.setLevel.Some? {
        var candidate := ParseLevel(rule.setLevel.value);
        if candidate.None? {
          return Err(InvalidLevel(rule));
        }
        if candidate.value.Rank() > level.Rank() {
          escalated := candidate;
        }
      }
      var added := Recommend(rule.advice);
      r := Ok((Decision(rule, true, escalated, rule.requireApproval, Titles(added)), added));
    }

    /** The loop over the recommendations of a rule, errors suppressed. */
    method Recommend(advice: seq<Advice>) returns (added: seq<Extra>)
      ensures added == Extras(advice)
    {
      added := [];
      for n := 0 to |advice|
        invariant added == Extras(advice[..n])
      {
        assert advice[..n + 1][..n] == advice[..n];
        var a := advice[n];
        if a.title.Some? && a.detail.Some? {
          var priority := ParsePriority(a.priority.GetOr("recommended"));
          if priority.Some? {
            added := added + [Extra(a.title.value, a.detail.value, priority.value, a.category.GetOr("review"))];
          }
        }
      }
      assert advice[..|advice|] == advice;
    }
  }

  lemma RecordNext(decisions: seq<Decision>, rules: seq<Rule>, holds: Outcomes, assessed: RiskLevel, n: nat, d: Decision)
    requires n < |rules| && Records(decisions, rules[..n], holds, assessed)
    requires d == DecisionOf(rules[n], holds, Highest(rules[..n], holds, assessed))
    ensures Records(decisions + [d], rules[..n + 1], holds, assessed)
  {
    hide DecisionOf, Highest;
    forall i | 0 <= i <= n ensures rules[..n + 1][..i] == rules[..i] && (i < n ==> rules[..n][..i] == rules[..i]) {
    }
  }

  lemma HighestNext(rules: seq<Rule>, holds: Outcomes, assessed: RiskLevel, n: nat)
    requires n < |rules|
    ensures var before := Highest(rules[..n], holds, assessed);
            var d := DecisionOf(rules[n], holds, before);
            && Highest(rules[..n + 1], holds, assessed) == (if d.escalatedTo.Some? then d.escalatedTo.value else before)
            && (d.escalatedTo.Some? ==> d.escalatedTo.value.Rank() > before.Rank())
  {
    assert rules[..n + 1][..n] == rules[..n];
  }

  lemma HighestIs(rules: seq<Rule>, holds: Outcomes, assessed: RiskLevel)
    ensures IsHighest(rules, holds, assessed, Highest(rules, holds, assessed))
  {
  }

  lemma VerdictStart(holds: Outcomes, assessed: RiskLevel)
    ensures Highest([], holds, assessed) == assessed && Records([], [], holds, assessed)
    ensures Climbs(Escalations([]), assessed, assessed)
  {
  }

  lemma ClimbOne(levels: seq<RiskLevel>, next: RiskLevel, assessed: RiskLevel, level: RiskLevel)
    requires Climbs(levels, assessed, level) && assessed.Rank() <= level.Rank() < next.Rank()
    ensures Climbs(levels + [next], assessed, next)
  {
  }

  lemma EscalationsAppend(decisions: seq<Decision>, d: Decision)
    ensures Escalations(decisions + [d]) ==
            Escalations(decisions) + (if d.escalatedTo.Some? then [d.escalatedTo.value] else [])
  {
    assert (decisions + [d])[..|decisions|] == decisions;
  }

  lemma ClimbNext(decisions: seq<Decision>, d: Decision, assessed: RiskLevel, level: RiskLevel)
    requires Climbs(Escalations(decisions), assessed, level) && assessed.Rank() <= level.Rank()
    requires d.escalatedTo.Some? ==> d.escalatedTo.value.Rank() > level.Rank()
    ensures Climbs(Escalations(decisions + [d]), assessed, if d.escalatedTo.Some? then d.escalatedTo.value else level)
  {
    hide Escalations, Climbs;
    EscalationsAppend(decisions, d);
    if d.escalatedTo.Some? {
      ClimbOne(Escalations(decisions), d.escalatedTo.value, assessed, level);
    } else {
      assert Escalations(decisions) + [] == Escalations(decisions);
    }
  }

  predicate IsLevel(l: RiskLevel, name: string) {
    match l
    case Low => name == "low"
    case Medium => name == "medium"
    case High => name == "high"
    case Critical => name == "critical"
  }

  ghost predicate Met(rule: Rule, holds: Outcomes) {
    forall i :: 0 <= i < |rule.conditions| ==> holds(rule.conditions[i]) == Some(true)
  }

  /** The rule is met and names this level. */
  ghost predicate Demands(rule: Rule, holds: Outcomes, l: RiskLevel) {
    Met(rule, holds) && rule.setLevel.Some? && IsLevel(l, rule.setLevel.value)
  }

  lemma DemandsIs(rule: Rule, holds: Outcomes, l: RiskLevel)
    ensures Asked(rule, holds) == Some(l) <==> Demands(rule, holds, l)
    ensures Triggered(rule, holds) <==> Met(rule, holds)
  {
    hide AllHold;
    AllHoldExactly(rule.conditions, holds);
  }

  /**
   * What a recorded decision says: the rule is triggered exactly when all its conditions hold, and escalates to a level
   * exactly when it names it and that is above the assessed level and all levels the rules before it demand.
   */
  lemma DecisionsMean(decisions: seq<Decision>, rules: seq<Rule>, holds: Outcomes, assessed: RiskLevel, i: nat, l: RiskLevel)
    requires Records(decisions, rules, holds, assessed) && i < |rules|
    ensures var d := decisions[i];
            && d.rule == rules[i] && (d.triggered <==> Met(rules[i], holds))
            && (d.approval <==> Met(rules[i], holds) && rules[i].requireApproval)
            && (d.escalatedTo == Some(l) <==>
                  && Demands(rules[i], holds, l) && l.Rank() > assessed.Rank()
                  && forall j, m :: 0 <= j < i && Demands(rules[j], holds, m) ==> l.Rank() > m.Rank())
            && (!d.triggered ==> d.recommended == [])
            && (d.triggered ==> d.recommended == Titles(Extras(rules[i].advice)))
  {
    hide Extras, Titles, Asked, Triggered, Demands, Met, Highest;
    forall r, m ensures (Asked(r, holds) == Some(m) <==> Demands(r, holds, m)) && (Triggered(r, holds) <==> Met(r, holds)) {
      DemandsIs(r, holds, m);
    }
    DemandsIs(rules[i], holds, l);
    TopDemand(rules, holds, assessed, i, l);
    NoTitles();
  }

  lemma TopDemand(rules: seq<Rule>, holds: Outcomes, assessed: RiskLevel, i: nat, l: RiskLevel)
    requires i < |rules|
    ensures l.Rank() > Highest(rules[..i], holds, assessed).Rank() <==>
            l.Rank() > assessed.Rank() && forall j, m :: 0 <= j < i && Demands(rules[j], holds, m) ==> l.Rank() > m.Rank()
  {
    hide Asked, Demands, Highest;
    forall r, m ensures Asked(r, holds) == Some(m) <==> Demands(r, holds, m) {
      DemandsIs(r, holds, m);
    }
    var before := Highest(rules[..i], holds, assessed);
    HighestIs(rules[..i], holds, assessed);
    forall j, m | 0 <= j < i && Demands(rules[j], holds, m) ensures m.Rank() <= before.Rank() {
      assert rules[..i][j] == rules[j] && rules[j] in rules[..i];
    }
    if before != assessed {
      var r :| r in rules[..i] && Asked(r, holds) == Some(before);
      var j :| 0 <= j < i && rules[..i][j] == r;
      assert Demands(rules[j], holds, before);
    }
  }

  lemma NoTitles()
    ensures Titles([]) == []
  {
  }

  /** There is only one highest level. */
  lemma HighestIsUnique(rules: seq<Rule>, holds: Outcomes, assessed: RiskLevel, l: RiskLevel, m: RiskLevel)
    requires IsHighest(rules, holds, assessed, l) && IsHighest(rules, holds, assessed, m)
    ensures l == m
  {
    assert l.Rank() == m.Rank();
  }

  /** Of the rules that can change the verdict, no condition that held ceases to hold. */
  ghost predicate StillHold(rules: seq<Rule>, before: Outcomes, after: Outcomes) {
    forall r :: r in rules && (r.setLevel.Some? || r.requireApproval) ==>
      forall i :: 0 <= i < |r.conditions| && before(r.conditions[i]) == Some(true) ==> after(r.conditions[i]) == Some(true)
  }

  lemma StillTriggered(rules: seq<Rule>, r: Rule, before: Outcomes, after: Outcomes)
    requires StillHold(rules, before, after) && r in rules && (r.setLevel.Some? || r.requireApproval)
    requires Triggered(r, before)
    ensures Triggered(r, after)
  {
    AllHoldExactly(r.conditions, before);
    AllHoldExactly(r.conditions, after);
  }

  /** If the assessed level does not fall and no such condition ceases to hold, the verdict does not fall either. */
  lemma VerdictNeverFalls(rules: seq<Rule>, before: Outcomes, after: Outcomes, assessed: RiskLevel,
                          later: RiskLevel, l: RiskLevel, m: RiskLevel)
    requires StillHold(rules, before, after) && assessed.Rank() <= later.Rank()
    requires IsHighest(rules, before, assessed, l) && IsHighest(rules, after, later, m)
    ensures l.Rank() <= m.Rank()
    ensures (exists i :: 0 <= i < |rules| && AsksApproval(rules[i], before))
            ==> exists i :: 0 <= i < |rules| && AsksApproval(rules[i], after)
  {
    if l != assessed {
      var r :| r in rules && Asked(r, before) == Some(l);
      StillTriggered(rules, r, before, after);
      assert Asked(r, after) == Some(l);
    }
    if i :| 0 <= i < |rules| && AsksApproval(rules[i], before) {
      assert rules[i] in rules;
      StillTriggered(rules, rules[i], before, after);
      assert AsksApproval(rules[i], after);
    }
  }

  /** The order of the rules does not matter for usability, the final level or the approval. */
  lemma OrderIsIrrelevant(rules: seq<Rule>, shuffled: seq<Rule>, holds: Outcomes, assessed: RiskLevel,
                          l: RiskLevel, m: RiskLevel)
    requires multiset(rules) == multiset(shuffled)
    requires IsHighest(rules, holds, assessed, l) && IsHighest(shuffled, holds, assessed, m)
    ensures l == m
    ensures Usable(rules, holds) <==> Usable(shuffled, holds)
    ensures (exists i :: 0 <= i < |rules| && AsksApproval(rules[i], holds))
            <==> (exists i :: 0 <= i < |shuffled| && AsksApproval(shuffled[i], holds))
  {
    forall r: Rule ensures r in rules <==> r in shuffled {
      assert r in multiset(rules) <==> r in multiset(shuffled);
    }
    SameMembersSameApproval(rules, shuffled, holds);
    SameMembersSameApproval(shuffled, rules, holds);
    assert IsHighest(shuffled, holds, assessed, l);
    HighestIsUnique(shuffled, holds, assessed, l, m);
  }

  lemma SameMembersSameApproval(rules: seq<Rule>, others: seq<Rule>, holds: Outcomes)
    requires forall r: Rule :: r in rules ==> r in others
    ensures (exists i :: 0 <= i < |rules| && AsksApproval(rules[i], holds))
            ==> exists i :: 0 <= i < |others| && AsksApproval(others[i], holds)
  {
    if i :| 0 <= i < |rules| && AsksApproval(rules[i], holds) {
      assert rules[i] in others;
    }
  }
}
