/** The weighted sum, the risk level it maps to, and the confidence reported beside it. */
module RiskEngine {
  import opened Prelude
  import opened Reals
  import opened Changes
  import opened Dependencies
  import opened BlastRadii
  import opened RiskFactors
  import opened RiskGrowth

  datatype RiskLevel = Low | Medium | High | Critical {
    function Rank(): nat {
      match this
      case Low => 0
      case Medium => 1
      case High => 2
      case Critical => 3
    }
  }

  const UNCOMPUTED: seq<FactorType> := [DeploymentFrequency, RecentChangeActivity, Observability, TestCoverage]

  datatype Policy = Policy(
    weights: map<FactorType, real>,
    unimplemented: seq<FactorType>,
    lowMax: real,
    mediumMax: real,
    highMax: real,
    minConfidence: real)
  {
    /** What the constructor has checked of every policy in use. */
    ghost predicate Accepted() {
      && (forall t :: t in weights ==> weights[t] > 0.0)
      && Round4(TotalWeight(weights)) == 1.0
    }

    function LevelFor(score: real): RiskLevel {
      if score <= lowMax then Low
      else if score <= mediumMax then Medium
      else if score <= highMax then High
      else RiskLevel.Critical
    }
  }

  function Weights(weights: map<FactorType, real>, types: seq<FactorType>): (r: seq<real>)
    ensures |r| == |types| && forall i :: 0 <= i < |types| ==> r[i] == WeightOf(weights, types[i])
  {
    seq(|types|, i requires 0 <= i < |types| => WeightOf(weights, types[i]))
  }

  /** All weights of a policy, the ones of factors that cannot be computed included. */
  function TotalWeight(weights: map<FactorType, real>): real {
    Sum(Weights(weights, COMPUTED)) + Sum(Weights(weights, UNCOMPUTED))
  }

  // ---------------------------------------------------------------------------
  // Loading a policy
  // ---------------------------------------------------------------------------

  function ParseFactor(name: string): Option<FactorType> {
    if name == "lock_risk" then Some(LockRisk)
    else if name == "backward_compatibility" then Some(BackwardCompatibility)
    else if name == "criticality" then Some(CriticalDependencies)
    else if name == "dependency_count" then Some(DependencyCount)
    else if name == "production_usage" then Some(ProductionUsage)
    else if name == "table_size" then Some(TableSize)
    else if name == "data_volume" then Some(DataVolume)
    else if name == "index_impact" then Some(IndexImpact)
    else if name == "query_impact" then Some(QueryImpact)
    else if name == "replication_impact" then Some(ReplicationImpact)
    else if name == "rollback_difficulty" then Some(RollbackDifficulty)
    else if name == "change_complexity" then Some(ChangeComplexity)
    else if name == "historical_incidents" then Some(HistoricalIncidents)
    else if name == "deployment_frequency" then Some(DeploymentFrequency)
    else if name == "recent_change_activity" then Some(RecentChangeActivity)
    else if name == "observability" then Some(Observability)
    else if name == "test_coverage" then Some(TestCoverage)
    else None
  }

  datatype FactorSpec = FactorSpec(name: string, weight: real, implemented: bool)

  datatype PolicyError = UnknownFactor(name: string) | WeightsDoNotSumToOne(total: real)

  predicate AllKnown(specs: seq<FactorSpec>) {
    forall i :: 0 <= i < |specs| ==> ParseFactor(specs[i].name).Some?
  }

  /** The weights in force: implemented entries with a positive weight. */
  function WeightsIn(specs: seq<FactorSpec>): map<FactorType, real>
    requires AllKnown(specs)
  {
    if specs == [] then
      map[]
    else
      var n := |specs| - 1;
      var rest := WeightsIn(specs[..n]);
      if specs[n].implemented && specs[n].weight > 0.0 then
        rest[ParseFactor(specs[n].name).value := specs[n].weight]
      else
        rest
  }

  /** The other entries, as the file lists them: each is noted as not assessed. */
  function NotInForce(specs: seq<FactorSpec>): seq<FactorType>
    requires AllKnown(specs)
  {
    if specs == [] then
      []
    else
      var n := |specs| - 1;
      NotInForce(specs[..n])
      + (if specs[n].implemented && specs[n].weight > 0.0 then [] else [ParseFactor(specs[n].name).value])
  }

  lemma {:induction false} WeightsArePositive(specs: seq<FactorSpec>)
    requires AllKnown(specs)
    ensures forall t :: t in WeightsIn(specs) ==> WeightsIn(specs)[t] > 0.0
  {
    if specs != [] {
      WeightsArePositive(specs[..|specs| - 1]);
    }
  }

  /** The entry puts this factor in force, with its weight. */
  predicate PutsInForce(spec: FactorSpec, t: FactorType) {
    ParseFactor(spec.name) == Some(t) && spec.implemented && spec.weight > 0.0
  }

  /** A factor has the weight of the last entry that puts it in force, and none if no entry does. */
  lemma {:induction false} WeightsAre(specs: seq<FactorSpec>, t: FactorType)
    requires AllKnown(specs)
    ensures t in WeightsIn(specs) <==> exists i :: 0 <= i < |specs| && PutsInForce(specs[i], t)
    ensures t in WeightsIn(specs) ==>
              exists i :: 0 <= i < |specs| && PutsInForce(specs[i], t) && WeightsIn(specs)[t] == specs[i].weight
                          && forall j :: i < j < |specs| ==> !PutsInForce(specs[j], t)
  {
    hide ParseFactor;
    if specs != [] {
      var n := |specs| - 1;
      WeightsAre(specs[..n], t);
      assert forall i :: 0 <= i < n ==> specs[..n][i] == specs[i];
      if !PutsInForce(specs[n], t) && t in WeightsIn(specs) {
        var i :| 0 <= i < n && PutsInForce(specs[..n][i], t) && WeightsIn(specs[..n])[t] == specs[..n][i].weight
              && forall j :: i < j < n ==> !PutsInForce(specs[..n][j], t);
        assert PutsInForce(specs[i], t) && forall j :: i < j < |specs| ==> !PutsInForce(specs[j], t);
      } else if PutsInForce(specs[n], t) {
        assert WeightsIn(specs)[t] == specs[n].weight;
      }
    }
  }

  /** An entry that does not put its factor in force is listed for it, after those of the entries before. */
  lemma NotInForceNext(specs: seq<FactorSpec>, spec: FactorSpec, t: FactorType)
    requires AllKnown(specs + [spec]) && ParseFactor(spec.name) == Some(t)
    ensures AllKnown(specs)
    ensures NotInForce(specs + [spec]) == NotInForce(specs) + (if PutsInForce(spec, t) then [] else [t])
    ensures NotInForce([]) == []
  {
    hide ParseFactor;
    assert forall i :: 0 <= i < |specs| ==> specs[i] == (specs + [spec])[i];
    assert (specs + [spec])[..|specs|] == specs;
  }

  /** A loaded policy is an accepted one; loading fails exactly on an unknown factor or weights that miss 1. */
  method LoadPolicy(specs: seq<FactorSpec>, lowMax: real := 24.0, mediumMax: real := 49.0, highMax: real := 74.0,
                    minConfidence: real := 0.85) returns (r: Result<Policy, PolicyError>)
    ensures r.Ok? ==> r.value.Accepted() && AllKnown(specs) && r.value.weights == WeightsIn(specs)
    ensures r.Ok? ==> r.value.unimplemented == NotInForce(specs)
    ensures r.Ok? ==> r.value.lowMax == lowMax && r.value.mediumMax == mediumMax
    ensures r.Ok? ==> r.value.highMax == highMax && r.value.minConfidence == minConfidence
    ensures r.Ok? <==> AllKnown(specs) && Round4(TotalWeight(WeightsIn(specs))) == 1.0
    ensures r.Err? && r.error.UnknownFactor? <==> !AllKnown(specs)
    ensures r.Err? && r.error.UnknownFactor? ==>
              exists i :: 0 <= i < |specs| && r.error.name == specs[i].name && ParseFactor(specs[i].name).None?
                          && AllKnown(specs[..i])
    ensures r.Err? && r.error.WeightsDoNotSumToOne? ==> r.error.total == Round4(TotalWeight(WeightsIn(specs)))
  {
    hide Round4, TotalWeight, ParseFactor;
    var weights: map<FactorType, real> := map[];
    var unimplemented: seq<FactorType> := [];
    for n := 0 to |specs|
      invariant AllKnown(specs[..n]) && weights == WeightsIn(specs[..n]) && unimplemented == NotInForce(specs[..n])
    {
      assert specs[..n + 1][..n] == specs[..n];
      var factor := ParseFactor(specs[n].name);
      if factor.None? {
        return Err(UnknownFactor(specs[n].name));
      }
      if specs[n].implemented && specs[n].weight > 0.0 {
        weights := weights[factor.value := specs[n].weight];
      } else {
        unimplemented := unimplemented + [factor.value];
      }
    }
    assert specs[..|specs|] == specs;
    var total := Round4(TotalWeight(weights));
    if total != 1.0 {
      return Err(WeightsDoNotSumToOne(total));
    }
    WeightsArePositive(specs);
    r := Ok(Policy(weights, unimplemented, lowMax, mediumMax, highMax, minConfidence));
  }

  // ---------------------------------------------------------------------------
  // The overall score
  // ---------------------------------------------------------------------------

  function TotalContribution(factors: seq<WeightedScore>): real {
    if factors == [] then 0.0
    else TotalContribution(factors[..|factors| - 1]) + factors[|factors| - 1].Contribution()
  }

  function OverallScore(ctx: FactorContext, weights: map<FactorType, real>): real {
    Round2(TotalContribution(Factors(ctx, weights, COMPUTED)))
  }

  /** A score times its weight, as a factor contributes it. */
  function Scaled(score: int, weight: real): real {
    if weight <= 0.0 then 0.0 else Product(score as real, weight)
  }

  lemma ScaledBelow(score: int, weight: real, hi: int)
    requires 0.0 <= weight && (0.0 < weight ==> score <= hi)
    ensures Scaled(score, weight) <= Times(hi as real, weight) + 0.00005
  {
    hide Round4;
    if weight > 0.0 {
      RoundError(score as real * weight);
      ScaleBetween(score as real, hi as real, hi as real, weight);
      assert Scaled(score, weight) == Round4(score as real * weight);
    }
  }

  lemma ScaledAbove(score: int, weight: real, lo: int)
    requires 0.0 <= weight && (0.0 < weight ==> lo <= score)
    ensures Times(lo as real, weight) <= Scaled(score, weight) + 0.00005
  {
    hide Round4;
    if weight > 0.0 {
      var x := score as real * weight;
      RoundError(x);
      ScaleBetween(lo as real, score as real, score as real, weight);
      assert lo as real * weight <= x;
      assert Scaled(score, weight) == Round4(x);
    }
  }

  lemma ScaledMonotone(s: int, t: int, weight: real)
    requires s <= t
    ensures Scaled(s, weight) <= Scaled(t, weight)
  {
    hide Round4;
    if weight > 0.0 {
      var x, y := s as real * weight, t as real * weight;
      ScaleBetween(s as real, t as real, t as real, weight);
      Round4Monotone(x, y);
      assert Scaled(s, weight) == Round4(x) && Scaled(t, weight) == Round4(y);
    }
  }

  lemma ScaledNonNegative(s: nat, weight: real)
    ensures 0.0 <= Scaled(s, weight)
  {
    ScaledMonotone(0, s, weight);
    RoundInteger(0);
  }

  lemma ScaleBetween(a: real, b: real, c: real, w: real)
    requires a <= b <= c && 0.0 <= w
    ensures a * w <= b * w <= c * w
  {
    assert (b - a) * w >= 0.0 && (c - b) * w >= 0.0;
  }

  /** A banded integer score is stored unchanged, so a factor contributes its scaled score. */
  lemma ContributionIsScaled(t: FactorType, score: int, weight: real)
    requires 0 <= score <= 100 && weight > 0.0
    ensures MakeFactor(t, score, weight).Contribution() == Scaled(score, weight)
  {
    hide Round2, Product;
    RoundInteger(score);
    assert Clamp(score as real) == score as real;
  }

  /** What one factor adds to the total. */
  function Share(ctx: FactorContext, weights: map<FactorType, real>, t: FactorType): real {
    Scaled(Score(ctx, t), WeightOf(weights, t))
  }

  function Shares(ctx: FactorContext, weights: map<FactorType, real>, types: seq<FactorType>): (r: seq<real>)
    ensures |r| == |types| && forall i :: 0 <= i < |types| ==> r[i] == Share(ctx, weights, types[i])
  {
    seq(|types|, i requires 0 <= i < |types| => Share(ctx, weights, types[i]))
  }

  /** Leaving out the factors without weight does not change the sum. */
  lemma {:induction false} TotalIsSum(ctx: FactorContext, weights: map<FactorType, real>, types: seq<FactorType>)
    ensures TotalContribution(Factors(ctx, weights, types)) == Sum(Shares(ctx, weights, types))
  {
    hide Scaled, MakeFactor, Score, TotalContribution;
    if types == [] {
      NothingContributed();
    } else {
      var n := |types| - 1;
      TotalIsSum(ctx, weights, types[..n]);
      assert Shares(ctx, weights, types)[..n] == Shares(ctx, weights, types[..n]);
      var most, w, score := Factors(ctx, weights, types[..n]), WeightOf(weights, types[n]), Score(ctx, types[n]);
      if w > 0.0 {
        ContributionIsScaled(types[n], score, w);
        OneMoreContributed(most, MakeFactor(types[n], score, w));
      } else {
        assert Factors(ctx, weights, types) == most;
        NothingScaled(score, w);
      }
    }
  }

  lemma NothingContributed()
    ensures TotalContribution([]) == 0.0
  {
  }

  lemma OneMoreContributed(factors: seq<WeightedScore>, f: WeightedScore)
    ensures TotalContribution(factors + [f]) == TotalContribution(factors) + f.Contribution()
  {
    hide Product;
    assert (factors + [f])[..|factors|] == factors;
  }

  lemma NothingScaled(score: int, weight: real)
    requires weight <= 0.0
    ensures Scaled(score, weight) == 0.0
  {
  }

  lemma OverallIsRoundedSum(ctx: FactorContext, weights: map<FactorType, real>)
    ensures OverallScore(ctx, weights) == Round2(Sum(Shares(ctx, weights, COMPUTED)))
  {
    TotalIsSum(ctx, weights, COMPUTED);
  }

  // ---------------------------------------------------------------------------
  // Bounds
  // ---------------------------------------------------------------------------

  lemma TotalBelow(ctx: FactorContext, weights: map<FactorType, real>, types: seq<FactorType>, hi: int)
    requires forall t :: t in weights ==> weights[t] > 0.0
    requires forall t :: t in types && t in weights ==> Score(ctx, t) <= hi
    ensures Sum(Shares(ctx, weights, types))
            <= Times(hi as real, Sum(Weights(weights, types))) + Times(0.00005, |types| as real)
  {
    hide Score, Scaled, Times;
    var xs, ws := Shares(ctx, weights, types), Weights(weights, types);
    forall i | 0 <= i < |xs| ensures xs[i] <= Times(hi as real, ws[i]) + 0.00005 {
      assert types[i] in types;
      ScaledBelow(Score(ctx, types[i]), ws[i], hi);
    }
    SumBelow(xs, ws, hi as real, 0.00005);
  }

  lemma TotalAbove(ctx: FactorContext, weights: map<FactorType, real>, types: seq<FactorType>, lo: int)
    requires forall t :: t in weights ==> weights[t] > 0.0
    requires forall t :: t in types && t in weights ==> lo <= Score(ctx, t)
    ensures Times(lo as real, Sum(Weights(weights, types)))
            <= Sum(Shares(ctx, weights, types)) + Times(0.00005, |types| as real)
  {
    hide Score, Scaled, Times;
    var xs, ws := Shares(ctx, weights, types), Weights(weights, types);
    forall i | 0 <= i < |xs| ensures Times(lo as real, ws[i]) <= xs[i] + 0.00005 {
      assert types[i] in types;
      ScaledAbove(Score(ctx, types[i]), ws[i], lo);
    }
    SumAbove(xs, ws, lo as real, 0.00005);
  }

  lemma WeightSumNonNegative(weights: map<FactorType, real>, types: seq<FactorType>)
    requires forall t :: t in weights ==> weights[t] > 0.0
    ensures Sum(Weights(weights, types)) >= 0.0
    ensures (forall t :: t in types ==> t !in weights) ==> Sum(Weights(weights, types)) == 0.0
  {
    var ws := Weights(weights, types);
    SumNonNegative(ws);
    if forall t :: t in types ==> t !in weights {
      forall i | 0 <= i < |ws| ensures ws[i] == 0.0 {
        assert types[i] in types;
      }
      SumSingle(ws, |ws|);
    }
  }

  /**
   * Up to one unit of rounding the overall score lies between the smallest and the largest weighted factor score.
   * The lower bound needs every weighted factor to be computable: a weight on one that is not counts towards the
   * required sum of 1 but adds nothing to the score.
   */
  lemma OverallWithin(ctx: FactorContext, p: Policy, lo: int, hi: int)
    requires p.Accepted() && 0 <= lo <= hi <= 100
    requires forall t :: t in COMPUTED && t in p.weights ==> lo <= Score(ctx, t) <= hi
    ensures OverallScore(ctx, p.weights) <= hi as real + 0.01
    ensures (forall t :: t in UNCOMPUTED ==> t !in p.weights) ==> lo as real - 0.01 <= OverallScore(ctx, p.weights)
  {
    hide OverallScore, Score, Shares, Weights, Round2, Round4;
    var w, u := Sum(Weights(p.weights, COMPUTED)), Sum(Weights(p.weights, UNCOMPUTED));
    var total := Sum(Shares(ctx, p.weights, COMPUTED));
    TotalBelow(ctx, p.weights, COMPUTED, hi);
    TotalAbove(ctx, p.weights, COMPUTED, lo);
    assert |COMPUTED| == 13;
    WeightSumNonNegative(p.weights, UNCOMPUTED);
    RoundError(w + u);
    OverallIsRoundedSum(ctx, p.weights);
    HundredthAbove(hi, w, total);
    if forall t :: t in UNCOMPUTED ==> t !in p.weights {
      HundredthBelow(lo, w, total);
    }
  }

  /** The weighted scores before any rounding. */
  function Unrounded(ctx: FactorContext, weights: map<FactorType, real>, types: seq<FactorType>): (r: seq<real>)
    ensures |r| == |types|
    ensures forall i :: 0 <= i < |types| ==> r[i] == Times(Score(ctx, types[i]) as real, WeightOf(weights, types[i]))
  {
    seq(|types|, i requires 0 <= i < |types| => Times(Score(ctx, types[i]) as real, WeightOf(weights, types[i])))
  }

  /** Without rounding, the weighted sum lies between the weight sum times the smallest and the largest score. */
  lemma UnroundedBetween(ctx: FactorContext, weights: map<FactorType, real>, lo: int, hi: int)
    requires forall t :: t in weights ==> weights[t] > 0.0
    requires forall t :: t in COMPUTED && t in weights ==> lo <= Score(ctx, t) <= hi
    ensures Times(lo as real, Sum(Weights(weights, COMPUTED))) <= Sum(Unrounded(ctx, weights, COMPUTED))
            <= Times(hi as real, Sum(Weights(weights, COMPUTED)))
  {
    hide Score, Times;
    var xs, ws := Unrounded(ctx, weights, COMPUTED), Weights(weights, COMPUTED);
    forall i | 0 <= i < |xs|
      ensures Times(lo as real, ws[i]) <= xs[i] + 0.0 && xs[i] <= Times(hi as real, ws[i]) + 0.0
    {
      assert COMPUTED[i] in COMPUTED;
      WeightedBetween(lo, Score(ctx, COMPUTED[i]), hi, ws[i]);
    }
    SumBelow(xs, ws, hi as real, 0.0);
    SumAbove(xs, ws, lo as real, 0.0);
    TimesSum(|xs| as real, 0.0, 0.0);
  }

  /** Without rounding, weights that sum to 1 keep the weighted sum between the smallest and the largest score. */
  lemma UnroundedWithin(ctx: FactorContext, weights: map<FactorType, real>, lo: int, hi: int)
    requires forall t :: t in weights ==> weights[t] > 0.0
    requires Sum(Weights(weights, COMPUTED)) == 1.0
    requires forall t :: t in COMPUTED && t in weights ==> lo <= Score(ctx, t) <= hi
    ensures lo as real <= Sum(Unrounded(ctx, weights, COMPUTED)) <= hi as real
  {
    hide Score, Times;
    UnroundedBetween(ctx, weights, lo, hi);
    TimesSum(hi as real, 0.0, 0.0);
    TimesSum(lo as real, 0.0, 0.0);
  }

  lemma WeightedBetween(lo: int, score: int, hi: int, weight: real)
    requires weight >= 0.0 && (weight > 0.0 ==> lo <= score <= hi)
    ensures Times(lo as real, weight) <= Times(score as real, weight) <= Times(hi as real, weight)
  {
    if weight > 0.0 {
      ScaleBetween(lo as real, score as real, hi as real, weight);
    }
  }

  /** Weights that rounding to four decimals leaves alone, such as any written with at most four decimals. */
  predicate FourDecimals(weights: map<FactorType, real>) {
    forall t :: t in weights ==> Round4(weights[t]) == weights[t]
  }

  lemma {:induction false} SumHasFourDecimals(xs: seq<real>)
    requires forall i :: 0 <= i < |xs| ==> Round4(xs[i]) == xs[i]
    ensures Round4(Sum(xs)) == Sum(xs)
  {
    if xs == [] {
      RoundExact(0);
    } else {
      var n := |xs| - 1;
      SumHasFourDecimals(xs[..n]);
      var a, b := RoundHalfEven(Sum(xs[..n]) * 10000.0), RoundHalfEven(xs[n] * 10000.0);
      assert Sum(xs) == (a + b) as real / 10000.0;
      RoundExact(a + b);
    }
  }

  lemma FourDecimalProduct(score: int, weight: real) returns (n: int)
    requires Round4(weight) == weight
    ensures Times(score as real, weight) == n as real / 10000.0
  {
    n := score * RoundHalfEven(weight * 10000.0);
  }

  lemma ScaledIsRounded(score: int, weight: real)
    requires weight > 0.0
    ensures Scaled(score, weight) == Round4(Times(score as real, weight))
  {
    hide Round4, Times;
  }

  /** A whole score times such a weight is not rounded. */
  lemma ScaledHasFourDecimals(score: int, weight: real)
    requires 0.0 <= weight && Round4(weight) == weight
    ensures Scaled(score, weight) == Times(score as real, weight)
  {
    hide Round4;
    if weight > 0.0 {
      var n := FourDecimalProduct(score, weight);
      RoundExact(n);
      ScaledIsRounded(score, weight);
    }
  }

  lemma WeightsHaveFourDecimals(weights: map<FactorType, real>, types: seq<FactorType>)
    requires FourDecimals(weights)
    ensures Round4(Sum(Weights(weights, types))) == Sum(Weights(weights, types))
  {
    RoundExact(0);
    SumHasFourDecimals(Weights(weights, types));
  }

  lemma FourDecimalShares(ctx: FactorContext, weights: map<FactorType, real>, types: seq<FactorType>)
    requires FourDecimals(weights) && forall t :: t in weights ==> weights[t] > 0.0
    ensures Shares(ctx, weights, types) == Unrounded(ctx, weights, types)
  {
    hide Score, Round4, Scaled, Times;
    RoundInteger(0);
    forall i | 0 <= i < |types| ensures Shares(ctx, weights, types)[i] == Unrounded(ctx, weights, types)[i] {
      ScaledHasFourDecimals(Score(ctx, types[i]), WeightOf(weights, types[i]));
    }
  }

  lemma WholeBounds(lo: int, hi: int, w: real, total: real)
    requires 0 <= lo <= hi && 0.0 <= w <= 1.0
    requires Times(lo as real, w) <= total <= Times(hi as real, w)
    ensures Round2(total) <= hi as real && (w == 1.0 ==> lo as real <= Round2(total))
  {
    hide Round2;
    ScaleBetween(0.0, w, 1.0, hi as real);
    assert Times(hi as real, w) == w * hi as real;
    Round2Monotone(total, hi as real);
    RoundInteger(hi);
    if w == 1.0 {
      Round2Monotone(lo as real, total);
      RoundInteger(lo);
    }
  }

  /**
   * With weights of at most four decimals nothing but the last rounding rounds, the sum required to round to 1 is 1,
   * and the overall score lies between the smallest and the largest weighted factor score, without any slack.
   */
  lemma OverallWithinWhole(ctx: FactorContext, p: Policy, lo: int, hi: int)
    requires p.Accepted() && FourDecimals(p.weights) && 0 <= lo <= hi <= 100
    requires forall t :: t in COMPUTED && t in p.weights ==> lo <= Score(ctx, t) <= hi
    ensures OverallScore(ctx, p.weights) <= hi as real
    ensures (forall t :: t in UNCOMPUTED ==> t !in p.weights) ==> lo as real <= OverallScore(ctx, p.weights)
  {
    hide OverallScore, Score, Shares, Unrounded, Weights, Round2, Round4, Times;
    var w, u := Sum(Weights(p.weights, COMPUTED)), Sum(Weights(p.weights, UNCOMPUTED));
    WeightSumNonNegative(p.weights, COMPUTED);
    WeightSumNonNegative(p.weights, UNCOMPUTED);
    WeightsHaveFourDecimals(p.weights, COMPUTED);
    WeightsHaveFourDecimals(p.weights, UNCOMPUTED);
    SumHasFourDecimals([w, u]);
    SumOfTwo(w, u);
    UnroundedBetween(ctx, p.weights, lo, hi);
    FourDecimalShares(ctx, p.weights, COMPUTED);
    OverallIsRoundedSum(ctx, p.weights);
    WholeBounds(lo, hi, w, Sum(Shares(ctx, p.weights, COMPUTED)));
  }

  lemma SumOfTwo(a: real, b: real)
    ensures Sum([a, b]) == a + b
  {
    assert [a, b][..1] == [a] && [a][..0] == [];
    assert Sum([a]) == Sum([a][..0]) + a;
  }

  lemma Hundredth(n: int)
    ensures Round2(n as real + 0.01) == n as real + 0.01
    ensures Round2(n as real - 0.01) == n as real - 0.01
  {
    RoundExact(100 * n + 1);
    RoundExact(100 * n - 1);
    assert (100 * n + 1) as real / 100.0 == n as real + 0.01;
    assert (100 * n - 1) as real / 100.0 == n as real - 0.01;
  }

  lemma SlackAbove(h: real, w: real, total: real)
    requires 0.0 <= h <= 100.0 && w <= 1.00005 && total <= h * w + 0.00065
    ensures total <= h + 0.01
  {
    assert h * (1.00005 - w) >= 0.0;
    assert h * (1.00005 - w) == 1.00005 * h - h * w;
  }

  lemma SlackBelow(l: real, w: real, total: real)
    requires 0.0 <= l <= 100.0 && w >= 0.99995 && total >= l * w - 0.00065
    ensures total >= l - 0.01
  {
    assert l * (w - 0.99995) >= 0.0;
    assert l * (w - 0.99995) == l * w - 0.99995 * l;
  }

  lemma HundredthAbove(hi: int, w: real, total: real)
    requires 0 <= hi <= 100 && w <= 1.00005 && total <= hi as real * w + 0.00065
    ensures Round2(total) <= hi as real + 0.01
  {
    hide Round2;
    SlackAbove(hi as real, w, total);
    Round2Monotone(total, hi as real + 0.01);
    Hundredth(hi);
  }

  lemma HundredthBelow(lo: int, w: real, total: real)
    requires 0 <= lo <= 100 && w >= 0.99995 && total >= lo as real * w - 0.00065
    ensures Round2(total) >= lo as real - 0.01
  {
    hide Round2;
    SlackBelow(lo as real, w, total);
    Round2Monotone(lo as real - 0.01, total);
    Hundredth(lo);
  }

  // ---------------------------------------------------------------------------
  // Rounding can push the score past the largest factor score
  // ---------------------------------------------------------------------------

  /** One table, altered once and indexed ten times. */
  function Crowded(): FactorContext {
    var on := (op: DatabaseOperation) =>
      DatabaseChange("database", op, None, "public", Some("t"), None, None, None, None, None, None, "");
    var i := on(CreateIndex);
    FactorContext("prod", None, [on(AlterColumnType), i, i, i, i, i, i, i, i, i, i],
                  map["public.t" := TableMetadata("t", Some(50_000_000), Some(500 * GIB))], None, map[],
                  map["unknown.public.t" := ["a", "b", "c", "d"]])
  }

  /** Nearly all weight on the table size, and just enough on seven other factors to be rounded up. */
  function Lopsided(): Policy {
    Policy(map[TableSize := 1.00004601, ChangeComplexity := 0.00000053, HistoricalIncidents := 0.00000053,
               BackwardCompatibility := 0.00000056, IndexImpact := 0.00000056, LockRisk := 0.00000059,
               DataVolume := 0.00000059, RollbackDifficulty := 0.00000063],
           [], 24.0, 49.0, 74.0, 0.85)
  }

  lemma {:induction false} OnlyTarget(ops: seq<DatabaseChange>, tables: map<string, TableMetadata>, t: TableMetadata)
    requires forall k :: k in tables ==> tables[k] == t
    ensures forall x :: x in TargetTables(ops, tables) ==> x == t
  {
    if ops != [] {
      OnlyTarget(ops[..|ops| - 1], tables, t);
    }
  }

  lemma CrowdedIs()
    ensures var ctx := Crowded();
            && |ctx.operations| == 11 && ctx.blast == None
            && ctx.operations[0].operation == AlterColumnType
            && (forall i :: 1 <= i < 11 ==> ctx.operations[i].operation == CreateIndex)
            && ctx.operations[10].HasTable() && ctx.operations[10].QualifiedTable() == Some("public.t")
            && IncidentKey(ctx.targetDatabase, ctx.operations[10]) == "unknown.public.t"
            && ctx.tables == map["public.t" := TableMetadata("t", Some(50_000_000), Some(500 * GIB))]
            && ctx.incidents == map["unknown.public.t" := ["a", "b", "c", "d"]]
  {
    assert "public" + "." + "t" == "public.t";
    assert "unknown" + "." + "public" + "." + "t" == "unknown.public.t";
  }

  lemma CrowdedTargets()
    ensures var ts := TargetTables(Crowded().operations, Crowded().tables);
            ts != [] && forall x :: x in ts ==> SizeOf(x) == 500 * GIB && RowsOf(x) == 50_000_000
  {
    hide Crowded;
    CrowdedIs();
    var ctx := Crowded();
    OnlyTarget(ctx.operations, ctx.tables, TableMetadata("t", Some(50_000_000), Some(500 * GIB)));
  }

  lemma CrowdedTables()
    ensures var ctx := Crowded();
            && Score(ctx, TableSize) == 95 && Score(ctx, DataVolume) == 85 && Score(ctx, IndexImpact) == 90
  {
    hide Crowded, TargetTables, SizeOf, RowsOf;
    CrowdedIs();
    CrowdedTargets();
    var ctx := Crowded();
    var ts := TargetTables(ctx.operations, ctx.tables);
    assert forall i :: 0 <= i < |ts| ==> ts[i] in ts;
    assert ctx.operations[1].operation == CreateIndex;
    assert SizeOf(ts[0]) >= 100 * GIB;
  }

  lemma LastIncidents(ops: seq<DatabaseChange>, database: Option<string>, incidents: map<string, seq<string>>)
    requires ops != [] && ops[|ops| - 1].HasTable() && IncidentKey(database, ops[|ops| - 1]) in incidents
    ensures IncidentCount(ops, database, incidents) >= |incidents[IncidentKey(database, ops[|ops| - 1])]|
  {
  }

  lemma CrowdedIncidents()
    ensures Score(Crowded(), HistoricalIncidents) == 95
  {
    hide Crowded, IncidentKey, IncidentCount, DatabaseChange.HasTable;
    CrowdedIs();
    var ctx := Crowded();
    LastIncidents(ctx.operations, ctx.targetDatabase, ctx.incidents);
  }

  lemma CrowdedKinds()
    ensures var ctx := Crowded();
            && Score(ctx, BackwardCompatibility) == 90 && Score(ctx, RollbackDifficulty) == 80
            && Score(ctx, LockRisk) == 85 && Score(ctx, ChangeComplexity) == 95
  {
    hide Crowded, LockScore, Kinds;
    CrowdedIs();
    var ctx := Crowded();
    var i :| 0 <= i < 11 && LockScore(ctx.operations) == LockBase(ctx.operations[i].operation);
    assert LockBase(ctx.operations[0].operation) == 85;
  }

  lemma SumNext(xs: seq<real>, n: nat)
    requires n < |xs|
    ensures Sum(xs[..n + 1]) == Sum(xs[..n]) + xs[n]
  {
    assert xs[..n + 1][..n] == xs[..n];
  }

  lemma SumOfThirteen(xs: seq<real>)
    requires |xs| == 13
    ensures Sum(xs) == xs[0] + xs[1] + xs[2] + xs[3] + xs[4] + xs[5] + xs[6] + xs[7] + xs[8] + xs[9] + xs[10] + xs[11] + xs[12]
  {
    forall n | 0 <= n < 13 ensures Sum(xs[..n + 1]) == Sum(xs[..n]) + xs[n] {
      SumNext(xs, n);
    }
    assert Sum(xs[..0]) == 0.0;
    assert xs[..13] == xs;
  }

  lemma ComputedWeight(weights: map<FactorType, real>)
    ensures Sum(Weights(weights, COMPUTED))
            == WeightOf(weights, LockRisk) + WeightOf(weights, BackwardCompatibility)
               + WeightOf(weights, CriticalDependencies) + WeightOf(weights, DependencyCount)
               + WeightOf(weights, ProductionUsage) + WeightOf(weights, TableSize) + WeightOf(weights, DataVolume)
               + WeightOf(weights, IndexImpact) + WeightOf(weights, QueryImpact) + WeightOf(weights, ReplicationImpact)
               + WeightOf(weights, RollbackDifficulty) + WeightOf(weights, ChangeComplexity)
               + WeightOf(weights, HistoricalIncidents)
  {
    hide WeightOf, Sum;
    SumOfThirteen(Weights(weights, COMPUTED));
  }

  lemma LopsidedIsAccepted()
    ensures Lopsided().Accepted()
  {
    hide Weights, Sum;
    var weights := Lopsided().weights;
    ComputedWeight(weights);
    WeightSumNonNegative(weights, UNCOMPUTED);
    assert TotalWeight(weights) == 1.00005;
  }

  /**
   * No factor ever scores above 95, yet an accepted policy reports 95.01: the bound of `OverallWithin` cannot be
   * tightened to the largest factor score unless the weights are restricted, as `OverallWithinWhole` does.
   */
  lemma RoundingCanExceed()
    ensures Lopsided().Accepted() && (forall t :: Score(Crowded(), t) <= 95)
    ensures OverallScore(Crowded(), Lopsided().weights) == 95.01
  {
    LopsidedIsAccepted();
    LopsidedShares();
    OverallIsRoundedSum(Crowded(), Lopsided().weights);
    assert Round2(95.0051) == 95.01;
  }

  lemma LopsidedShares()
    ensures Sum(Shares(Crowded(), Lopsided().weights, COMPUTED)) == 95.0051
  {
    hide Score, Crowded, Product;
    var ctx, weights := Crowded(), Lopsided().weights;
    CrowdedTables();
    CrowdedIncidents();
    CrowdedKinds();
    var xs := Shares(ctx, weights, COMPUTED);
    RoundedShares();
    SumOfThirteen(xs);
  }

  lemma RoundedShares()
    ensures Product(95.0, 1.00004601) == 95.0044
    ensures Product(95.0, 0.00000053) == 0.0001 && Product(90.0, 0.00000056) == 0.0001
    ensures Product(85.0, 0.00000059) == 0.0001 && Product(80.0, 0.00000063) == 0.0001
  {
  }

  /** Every assessment under an accepted policy scores between 0 and 100. */
  lemma OverallOnScale(ctx: FactorContext, p: Policy)
    requires p.Accepted()
    ensures 0.0 <= OverallScore(ctx, p.weights) <= 100.0
  {
    hide OverallScore, Score, Scaled, Round2, Round4;
    OverallWithin(ctx, p, 0, 95);
    OverallIsRoundedSum(ctx, p.weights);
    var xs := Shares(ctx, p.weights, COMPUTED);
    forall i | 0 <= i < |xs| ensures 0.0 <= xs[i] {
      ScaledNonNegative(Score(ctx, COMPUTED[i]), WeightOf(p.weights, COMPUTED[i]));
    }
    SumNonNegative(xs);
    Round2Monotone(0.0, Sum(xs));
    RoundInteger(0);
  }

  // ---------------------------------------------------------------------------
  // Appending operations
  // ---------------------------------------------------------------------------

  lemma OverallGrows(a: FactorContext, b: FactorContext, weights: map<FactorType, real>)
    requires forall t :: Score(a, t) <= Score(b, t)
    ensures OverallScore(a, weights) <= OverallScore(b, weights)
  {
    hide OverallScore, Score, Scaled, Round2;
    var xs, ys := Shares(a, weights, COMPUTED), Shares(b, weights, COMPUTED);
    forall i | 0 <= i < |xs| ensures xs[i] <= ys[i] {
      ScaledMonotone(Score(a, COMPUTED[i]), Score(b, COMPUTED[i]), WeightOf(weights, COMPUTED[i]));
    }
    SumMonotone(xs, ys);
    Round2Monotone(Sum(xs), Sum(ys));
    OverallIsRoundedSum(a, weights);
    OverallIsRoundedSum(b, weights);
  }

  /** The policy that weighs a single factor. */
  function OnlyFactor(t: FactorType): Policy {
    Policy(map[t := 1.0], [], 24.0, 49.0, 74.0, 0.85)
  }

  lemma OnlyShare(ctx: FactorContext, t: FactorType, u: FactorType)
    ensures Share(ctx, OnlyFactor(t).weights, u) == if u == t then Score(ctx, t) as real else 0.0
  {
    RoundInteger(Score(ctx, t));
  }

  /** A policy that weighs only the factor at `k` is accepted, and its overall score is that factor's score. */
  lemma OnlyFactorScores(ctx: FactorContext, k: nat)
    requires k < |COMPUTED|
    requires forall i :: 0 <= i < |COMPUTED| && i != k ==> COMPUTED[i] != COMPUTED[k]
    requires COMPUTED[k] !in UNCOMPUTED
    ensures OnlyFactor(COMPUTED[k]).Accepted()
    ensures OverallScore(ctx, OnlyFactor(COMPUTED[k]).weights) == Score(ctx, COMPUTED[k]) as real
  {
    var t := COMPUTED[k];
    var weights := OnlyFactor(t).weights;
    var xs, ws := Shares(ctx, weights, COMPUTED), Weights(weights, COMPUTED);
    forall i | 0 <= i < |COMPUTED| ensures xs[i] == if i == k then Score(ctx, t) as real else 0.0 {
      OnlyShare(ctx, t, COMPUTED[i]);
    }
    SumSingle(xs, k);
    SumSingle(ws, k);
    WeightSumNonNegative(weights, UNCOMPUTED);
    RoundInteger(1);
    RoundInteger(Score(ctx, t));
    OverallIsRoundedSum(ctx, weights);
  }

  /** The position of each factor an append can lower. */
  lemma LowerableFactor(t: FactorType) returns (k: nat)
    requires t == RollbackDifficulty || t == TableSize || t == DataVolume
    ensures k < |COMPUTED| && COMPUTED[k] == t
    ensures forall i :: 0 <= i < |COMPUTED| && i != k ==> COMPUTED[i] != t
    ensures t !in UNCOMPUTED
  {
    k := if t == TableSize then 5 else if t == DataVolume then 6 else 10;
  }

  /**
   * Appending operations never lowers the overall score, whatever accepted policy weighs the factors, exactly when
   * the append is safe.
   */
  lemma AppendNeverLowersScore(a: FactorContext, b: FactorContext)
    requires Appends(b, a)
    ensures (forall p: Policy :: p.Accepted() ==> OverallScore(a, p.weights) <= OverallScore(b, p.weights))
            <==> SafeToAppend(a.operations, b.operations, a.tables)
  {
    SafeForEachFactor(a.operations, b.operations, a.tables);
    if SafeToAppend(a.operations, b.operations, a.tables) {
      forall t ensures Score(a, t) <= Score(b, t) {
        FactorExact(a, b, t);
      }
      forall p: Policy | p.Accepted() ensures OverallScore(a, p.weights) <= OverallScore(b, p.weights) {
        OverallGrows(a, b, p.weights);
      }
    } else {
      var t :| !FactorSafe(a.operations, b.operations, a.tables, t);
      UnsafeAppendCanLower(a, b, t);
    }
  }

  lemma UnsafeAppendCanLower(a: FactorContext, b: FactorContext, t: FactorType)
    requires Appends(b, a) && !FactorSafe(a.operations, b.operations, a.tables, t)
    ensures OnlyFactor(t).Accepted()
    ensures OverallScore(b, OnlyFactor(t).weights) < OverallScore(a, OnlyFactor(t).weights)
  {
    FactorExact(a, b, t);
    var k := LowerableFactor(t);
    OnlyFactorScores(a, k);
    OnlyFactorScores(b, k);
  }

  lemma UncomputedPlace(t: FactorType) returns (k: nat)
    requires t in UNCOMPUTED
    ensures k < |UNCOMPUTED| && UNCOMPUTED[k] == t && t !in COMPUTED
    ensures forall i :: 0 <= i < |UNCOMPUTED| && i != k ==> UNCOMPUTED[i] != t
  {
    k :| 0 <= k < |UNCOMPUTED| && UNCOMPUTED[k] == t;
  }

  lemma OnlyUncomputedAccepted(t: FactorType)
    requires t in UNCOMPUTED
    ensures OnlyFactor(t).Accepted()
  {
    hide Round4;
    var weights := OnlyFactor(t).weights;
    var k := UncomputedPlace(t);
    var ws := Weights(weights, UNCOMPUTED);
    assert forall i :: 0 <= i < |ws| && i != k ==> ws[i] == 0.0;
    SumSingle(ws, k);
    WeightSumNonNegative(weights, COMPUTED);
    RoundInteger(1);
  }

  /** A weight on a factor without a calculator counts towards the sum of 1 and adds nothing to any score. */
  lemma UncomputedAddsNothing(ctx: FactorContext, t: FactorType)
    requires t in UNCOMPUTED
    ensures OnlyFactor(t).Accepted() && OverallScore(ctx, OnlyFactor(t).weights) == 0.0
  {
    hide OverallScore, Score, Share, Round2, Policy.Accepted;
    OnlyUncomputedAccepted(t);
    var _ := UncomputedPlace(t);
    var xs := Shares(ctx, OnlyFactor(t).weights, COMPUTED);
    forall i | 0 <= i < |xs| ensures xs[i] == 0.0 {
      OnlyShare(ctx, t, COMPUTED[i]);
      assert COMPUTED[i] in COMPUTED;
    }
    SumSingle(xs, |xs|);
    OverallIsRoundedSum(ctx, OnlyFactor(t).weights);
    RoundInteger(0);
  }

  /** So adding such a weight to a policy, or changing it, changes no score. */
  lemma UncomputedWeightIsIgnored(ctx: FactorContext, weights: map<FactorType, real>, t: FactorType, w: real)
    requires t in UNCOMPUTED
    ensures OverallScore(ctx, weights[t := w]) == OverallScore(ctx, weights)
  {
    hide OverallScore, Score, Scaled, Round2;
    var _ := UncomputedPlace(t);
    var xs, ys := Shares(ctx, weights[t := w], COMPUTED), Shares(ctx, weights, COMPUTED);
    forall i | 0 <= i < |xs| ensures xs[i] == ys[i] {
      assert COMPUTED[i] in COMPUTED;
    }
    assert xs == ys;
    OverallIsRoundedSum(ctx, weights[t := w]);
    OverallIsRoundedSum(ctx, weights);
  }

  // ---------------------------------------------------------------------------
  // The policy that comes with the repository
  // ---------------------------------------------------------------------------

  /** The default weights, in hundredths. */
  function ShippedHundredths(t: FactorType): int {
    match t
    case LockRisk => 16
    case BackwardCompatibility => 12
    case CriticalDependencies => 11
    case DependencyCount => 10
    case ProductionUsage => 9
    case RollbackDifficulty => 8
    case TableSize => 8
    case DataVolume => 7
    case IndexImpact => 6
    case ReplicationImpact => 5
    case ChangeComplexity => 4
    case QueryImpact => 2
    case HistoricalIncidents => 2
    case DeploymentFrequency => 0
    case RecentChangeActivity => 0
    case Observability => 0
    case TestCoverage => 0
  }

  function ShippedPolicy(): Policy {
    Policy(map t: FactorType | ShippedHundredths(t) > 0 :: ShippedHundredths(t) as real / 100.0, UNCOMPUTED,
           24.0, 49.0, 74.0, 0.85)
  }

  /** The weighted sum of the scores, in hundredths. */
  function Hundredths(ctx: FactorContext): int {
    16 * Score(ctx, LockRisk) + 12 * Score(ctx, BackwardCompatibility) + 11 * Score(ctx, CriticalDependencies)
    + 10 * Score(ctx, DependencyCount) + 9 * Score(ctx, ProductionUsage) + 8 * Score(ctx, TableSize)
    + 7 * Score(ctx, DataVolume) + 6 * Score(ctx, IndexImpact) + 2 * Score(ctx, QueryImpact)
    + 5 * Score(ctx, ReplicationImpact) + 8 * Score(ctx, RollbackDifficulty) + 4 * Score(ctx, ChangeComplexity)
    + 2 * Score(ctx, HistoricalIncidents)
  }

  lemma ShippedShare(ctx: FactorContext, t: FactorType)
    requires t in COMPUTED
    ensures Share(ctx, ShippedPolicy().weights, t) == (Score(ctx, t) * ShippedHundredths(t)) as real / 100.0
  {
    hide Score;
    var n := ShippedHundredths(t);
    var w := n as real / 100.0;
    assert n > 0;
    RoundExact(100 * n);
    assert w == (100 * n) as real / 10000.0;
    ScaledHasFourDecimals(Score(ctx, t), w);
    HundredthsTimes(Score(ctx, t), n);
  }

  lemma HundredthsTimes(score: int, n: int)
    ensures Times(score as real, n as real / 100.0) == (score * n) as real / 100.0
  {
    assert (score * n) as real == score as real * n as real;
  }

  /** Seven shares, then six, to keep each sum short. */
  lemma ShippedFirst(ctx: FactorContext)
    ensures var xs := Shares(ctx, ShippedPolicy().weights, COMPUTED);
            xs[0] + xs[1] + xs[2] + xs[3] + xs[4] + xs[5] + xs[6]
            == (16 * Score(ctx, LockRisk) + 12 * Score(ctx, BackwardCompatibility) + 11 * Score(ctx, CriticalDependencies)
                + 10 * Score(ctx, DependencyCount) + 9 * Score(ctx, ProductionUsage) + 8 * Score(ctx, TableSize)
                + 7 * Score(ctx, DataVolume)) as real / 100.0
  {
    hide Score, Share, ShippedPolicy;
    forall i | 0 <= i < 7 {
      ShippedShare(ctx, COMPUTED[i]);
    }
  }

  lemma ShippedLast(ctx: FactorContext)
    ensures var xs := Shares(ctx, ShippedPolicy().weights, COMPUTED);
            xs[7] + xs[8] + xs[9] + xs[10] + xs[11] + xs[12]
            == (6 * Score(ctx, IndexImpact) + 2 * Score(ctx, QueryImpact) + 5 * Score(ctx, ReplicationImpact)
                + 8 * Score(ctx, RollbackDifficulty) + 4 * Score(ctx, ChangeComplexity)
                + 2 * Score(ctx, HistoricalIncidents)) as real / 100.0
  {
    hide Score, Share, ShippedPolicy;
    forall i | 7 <= i < 13 {
      ShippedShare(ctx, COMPUTED[i]);
    }
  }

  /** Under the default weights nothing is ever rounded: the score is the weighted sum. */
  lemma ShippedScore(ctx: FactorContext)
    ensures OverallScore(ctx, ShippedPolicy().weights) == Hundredths(ctx) as real / 100.0
  {
    hide OverallScore, Score, Shares, ShippedPolicy, Round2;
    ShippedFirst(ctx);
    ShippedLast(ctx);
    SumOfThirteen(Shares(ctx, ShippedPolicy().weights, COMPUTED));
    OverallIsRoundedSum(ctx, ShippedPolicy().weights);
    RoundExact(Hundredths(ctx));
  }

  lemma ShippedWeights()
    ensures FourDecimals(ShippedPolicy().weights)
    ensures forall t :: WeightOf(ShippedPolicy().weights, t) == ShippedHundredths(t) as real / 100.0
  {
    hide Round4;
    var weights := ShippedPolicy().weights;
    forall t | t in weights ensures Round4(weights[t]) == weights[t] {
      RoundExact(100 * ShippedHundredths(t));
      assert weights[t] == (100 * ShippedHundredths(t)) as real / 10000.0;
    }
  }

  lemma ShippedComputed()
    ensures Sum(Weights(ShippedPolicy().weights, COMPUTED)) == 1.0
  {
    hide ShippedPolicy, Weights, WeightOf, Sum;
    ShippedWeights();
    ComputedWeight(ShippedPolicy().weights);
  }

  lemma ShippedUncomputed()
    ensures Sum(Weights(ShippedPolicy().weights, UNCOMPUTED)) == 0.0
  {
    hide ShippedPolicy, WeightOf, Sum;
    ShippedWeights();
    var us := Weights(ShippedPolicy().weights, UNCOMPUTED);
    assert forall i :: 0 <= i < |us| ==> us[i] == 0.0;
    SumSingle(us, |us|);
  }

  lemma ShippedIsAccepted()
    ensures ShippedPolicy().Accepted()
  {
    hide Round4, Weights, Sum;
    ShippedComputed();
    ShippedUncomputed();
    RoundInteger(1);
  }

  /**
   * Under the default weights, whatever else is known, adding one CREATE FUNCTION to a change without operations
   * lowers the score by 0.64: the rollback score falls from 40 to 15, which outweighs the lock and complexity scores.
   */
  lemma CreateFunctionLowers(a: FactorContext, op: DatabaseChange)
    requires a.operations == [] && op.operation == CreateFunction && !op.HasTable() && "" !in a.queryStats
    ensures var b := a.(operations := [op]);
            && Appends(b, a)
            && OverallScore(b, ShippedPolicy().weights) == OverallScore(a, ShippedPolicy().weights) - 0.64
  {
    hide OverallScore, Score, ShippedPolicy;
    var b := a.(operations := [op]);
    OneCreateFunction(a, op);
    ShippedScore(a);
    ShippedScore(b);
  }

  /** What one CREATE FUNCTION adds to the score of a factor when there was no operation. */
  function CreateFunctionAdds(t: FactorType): int {
    match t
    case LockRisk => 5
    case ChangeComplexity => 14
    case RollbackDifficulty => -25
    case _ => 0
  }

  lemma NoOperation(a: FactorContext)
    requires a.operations == [] && "" !in a.queryStats
    ensures Score(a, LockRisk) == 0 && Score(a, BackwardCompatibility) == 15 && TargetTables([], a.tables) == []
    ensures Score(a, IndexImpact) == 5 && Score(a, QueryImpact) == 15 && Score(a, RollbackDifficulty) == 40
    ensures Score(a, ChangeComplexity) == 10 && Score(a, HistoricalIncidents) == 15
  {
    assert Kinds(a.operations) == {};
  }

  lemma OneKind(b: FactorContext, op: DatabaseChange)
    requires b.operations == [op] && op.operation == CreateFunction && !op.HasTable() && "" !in b.queryStats
    ensures Score(b, BackwardCompatibility) == 15 && Score(b, IndexImpact) == 5 && Score(b, QueryImpact) == 15
    ensures Score(b, RollbackDifficulty) == 15 && Score(b, ChangeComplexity) == 24
  {
    hide TargetTables;
    assert b.operations[0].operation == CreateFunction;
    assert Kinds(b.operations) == {CreateFunction};
  }

  lemma OneEntry(b: FactorContext, op: DatabaseChange)
    requires b.operations == [op] && op.operation == CreateFunction && !op.HasTable()
    ensures Score(b, LockRisk) == 5 && TargetTables(b.operations, b.tables) == [] && Score(b, HistoricalIncidents) == 15
  {
    assert b.operations[..0] == [];
    assert IncidentCount(b.operations, b.targetDatabase, b.incidents)
           == IncidentCount([], b.targetDatabase, b.incidents);
  }

  lemma OneCreateFunction(a: FactorContext, op: DatabaseChange)
    requires a.operations == [] && op.operation == CreateFunction && !op.HasTable() && "" !in a.queryStats
    ensures var b := a.(operations := [op]);
            forall t :: Score(b, t) == Score(a, t) + CreateFunctionAdds(t)
  {
    hide LockScore, CompatibilityScore, IndexScore, QueryScore, RollbackScore, ComplexityScore, IncidentScore, TargetTables;
    var b := a.(operations := [op]);
    NoOperation(a);
    OneKind(b, op);
    OneEntry(b, op);
  }

  /** A higher score never maps to a lower level, whatever the thresholds. */
  lemma LevelMonotone(p: Policy, s: real, t: real)
    requires s <= t
    ensures p.LevelFor(s).Rank() <= p.LevelFor(t).Rank()
  {
  }

  /** Each level but the highest ends with its threshold; the level is the first whose threshold is not passed. */
  lemma LevelBoundaries(p: Policy, s: real)
    ensures p.LevelFor(s) == Low <==> s <= p.lowMax
    ensures p.LevelFor(s) == Medium <==> p.lowMax < s <= p.mediumMax
    ensures p.LevelFor(s) == High <==> p.lowMax < s && p.mediumMax < s <= p.highMax
    ensures p.LevelFor(s) == RiskLevel.Critical <==> p.lowMax < s && p.mediumMax < s && p.highMax < s
  {
  }

  /** By default low ends at 24, medium at 49, high at 74. */
  lemma ShippedLevels(s: real)
    ensures var p := ShippedPolicy();
            && (s <= 24.0 ==> p.LevelFor(s) == Low)
            && (24.0 < s <= 49.0 ==> p.LevelFor(s) == Medium)
            && (49.0 < s <= 74.0 ==> p.LevelFor(s) == High)
            && (74.0 < s ==> p.LevelFor(s) == RiskLevel.Critical)
            && p.minConfidence == 0.85
  {
  }

  // ---------------------------------------------------------------------------
  // Confidence
  // ---------------------------------------------------------------------------

  datatype Uncertainty =
    | Unclassified(count: nat)
    | NoMetadata(tables: set<string>)
    | LowGraphConfidence(confidence: real)
    | NoGraph
    | NotAssessed(factor: FactorType)

  function UnknownCount(ops: seq<DatabaseChange>): nat {
    if ops == [] then 0
    else UnknownCount(ops[..|ops| - 1]) + (if ops[|ops| - 1].operation == UnknownOperation then 1 else 0)
  }

  function MissingTables(ctx: FactorContext): set<string> {
    set i | 0 <= i < |ctx.operations| && ctx.operations[i].QualifiedTable().Some?
         && ctx.operations[i].QualifiedTable().value !in ctx.tables :: ctx.operations[i].QualifiedTable().value
  }

  function Max(x: real, y: real): real {
    if x >= y then x else y
  }

  function UnknownPenalty(count: nat): real {
    if count == 0 then 1.0 else Max(0.4, 1.0 - 0.15 * count as real)
  }

  function MissingPenalty(missing: set<string>): real {
    if missing == {} then 1.0 else 0.85
  }

  function GraphPenalty(blast: Option<BlastRadius>): real {
    if blast.Some? then blast.value.confidence else 0.5
  }

  /** The product of the penalties that apply, before clamping and rounding. */
  function RawConfidence(ctx: FactorContext): real {
    Times(Times(UnknownPenalty(UnknownCount(ctx.operations)), MissingPenalty(MissingTables(ctx))), GraphPenalty(ctx.blast))
  }

  function Unit(c: real): real {
    if c < 0.0 then 0.0 else if c > 1.0 then 1.0 else c
  }

  function Confidence(ctx: FactorContext): real {
    Round4(Unit(RawConfidence(ctx)))
  }

  function Notes(ctx: FactorContext, p: Policy): seq<Uncertainty> {
    (if UnknownCount(ctx.operations) == 0 then [] else [Unclassified(UnknownCount(ctx.operations))])
    + (if MissingTables(ctx) == {} then [] else [NoMetadata(MissingTables(ctx))])
    + (if ctx.blast.None? then [NoGraph]
       else if ctx.blast.value.confidence < p.minConfidence then [LowGraphConfidence(ctx.blast.value.confidence)]
       else [])
    + NotAssessedNotes(p.unimplemented)
  }

  function NotAssessedNotes(types: seq<FactorType>): seq<Uncertainty> {
    seq(|types|, i requires 0 <= i < |types| => NotAssessed(types[i]))
  }

  lemma TimesOne(x: real)
    ensures Times(1.0, x) == x
  {
  }

  method ConfidenceAndUncertainty(ctx: FactorContext, p: Policy) returns (confidence: real, notes: seq<Uncertainty>)
    ensures confidence == Confidence(ctx) && notes == Notes(ctx, p)
  {
    hide Round4, Unit, Max, UnknownCount, MissingTables, Times;
    notes := [];
    confidence := 1.0;
    var unknown := UnknownCount(ctx.operations);
    if unknown != 0 {
      confidence := Times(confidence, Max(0.4, 1.0 - 0.15 * unknown as real));
      notes := notes + [Unclassified(unknown)];
    }
    assert confidence == UnknownPenalty(unknown) by {
      TimesOne(UnknownPenalty(unknown));
    }
    var missing := MissingTables(ctx);
    if missing != {} {
      confidence := Times(confidence, 0.85);
      notes := notes + [NoMetadata(missing)];
    }
    assert confidence == Times(UnknownPenalty(unknown), MissingPenalty(missing)) by {
      TimesSum(UnknownPenalty(unknown), 0.0, 0.0);
    }
    if ctx.blast.Some? {
      confidence := Times(confidence, ctx.blast.value.confidence);
      if ctx.blast.value.confidence < p.minConfidence {
        notes := notes + [LowGraphConfidence(ctx.blast.value.confidence)];
      }
    } else {
      confidence := Times(confidence, 0.5);
      notes := notes + [NoGraph];
    }
    assert confidence == RawConfidence(ctx);
    confidence := Round4(Unit(confidence));
    var unassessed := ListNotAssessed(p.unimplemented);
    notes := notes + unassessed;
  }

  method ListNotAssessed(types: seq<FactorType>) returns (notes: seq<Uncertainty>)
    ensures notes == NotAssessedNotes(types)
  {
    notes := [];
    for n := 0 to |types|
      invariant notes == NotAssessedNotes(types)[..n]
    {
      notes := notes + [NotAssessed(types[n])];
    }
  }

  lemma ConfidenceInUnit(ctx: FactorContext)
    ensures 0.0 <= Confidence(ctx) <= 1.0
  {
    Round4Monotone(0.0, Unit(RawConfidence(ctx)));
    Round4Monotone(Unit(RawConfidence(ctx)), 1.0);
    RoundInteger(0);
    RoundInteger(1);
  }

  ghost predicate OnlyNotAssessed(notes: seq<Uncertainty>) {
    forall n :: n in notes ==> n.NotAssessed?
  }

  /** The only notes are those the policy itself causes, one for each factor it does not put in force. */
  ghost predicate Quiet(ctx: FactorContext, p: Policy) {
    OnlyNotAssessed(Notes(ctx, p))
  }

  lemma OnlyNotAssessedAppend(a: seq<Uncertainty>, b: seq<Uncertainty>)
    ensures OnlyNotAssessed(a + b) <==> OnlyNotAssessed(a) && OnlyNotAssessed(b)
  {
    assert forall n :: n in a + b <==> n in a || n in b;
  }

  lemma OnlyNotAssessedOne(n: Uncertainty)
    ensures OnlyNotAssessed([n]) <==> n.NotAssessed?
  {
    assert n in [n];
  }

  /** When an assessment is quiet. */
  lemma QuietExactly(ctx: FactorContext, p: Policy)
    ensures Quiet(ctx, p) <==>
            && UnknownCount(ctx.operations) == 0 && MissingTables(ctx) == {}
            && ctx.blast.Some? && ctx.blast.value.confidence >= p.minConfidence
    ensures Quiet(ctx, p) ==> Notes(ctx, p) == NotAssessedNotes(p.unimplemented)
  {
    hide UnknownCount, MissingTables, OnlyNotAssessed;
    var unknown, missing := UnknownCount(ctx.operations), MissingTables(ctx);
    var a := if unknown == 0 then [] else [Unclassified(unknown)];
    var b := if missing == {} then [] else [NoMetadata(missing)];
    var c := if ctx.blast.None? then [NoGraph]
             else if ctx.blast.value.confidence < p.minConfidence then [LowGraphConfidence(ctx.blast.value.confidence)]
             else [];
    var d := NotAssessedNotes(p.unimplemented);
    assert Notes(ctx, p) == a + b + c + d;
    OnlyNotAssessedAppend(a + b + c, d);
    OnlyNotAssessedAppend(a + b, c);
    OnlyNotAssessedAppend(a, b);
    OnlyNotAssessedOne(Unclassified(unknown));
    OnlyNotAssessedOne(NoMetadata(missing));
    OnlyNotAssessedOne(NoGraph);
    if ctx.blast.Some? {
      OnlyNotAssessedOne(LowGraphConfidence(ctx.blast.value.confidence));
    }
    NothingElseNoted(p.unimplemented);
  }

  lemma NothingElseNoted(types: seq<FactorType>)
    ensures OnlyNotAssessed([]) && OnlyNotAssessed(NotAssessedNotes(types))
  {
  }

  /**
   * Without a note about the change itself the reported confidence is at least the configured minimum, provided the
   * blast radius confidence is what the analyzer reports: rounded to four digits and at most 1.
   */
  lemma QuietMeansConfident(ctx: FactorContext, p: Policy)
    requires Quiet(ctx, p)
    requires ctx.blast.Some? ==>
               Round4(ctx.blast.value.confidence) == ctx.blast.value.confidence && 0.0 <= ctx.blast.value.confidence <= 1.0
    ensures ctx.blast.Some? && Confidence(ctx) == ctx.blast.value.confidence >= p.minConfidence
  {
    hide Quiet, Round4;
    QuietExactly(ctx, p);
    assert RawConfidence(ctx) == ctx.blast.value.confidence;
  }

  /** The score, level, confidence and notes of one assessment. */
  datatype Assessment = Assessment(
    factors: seq<WeightedScore>,
    overallScore: real,
    level: RiskLevel,
    confidence: real,
    notes: seq<Uncertainty>)

  function AssessmentOf(ctx: FactorContext, p: Policy): Assessment {
    var score := OverallScore(ctx, p.weights);
    Assessment(Factors(ctx, p.weights, COMPUTED), score, p.LevelFor(score), Confidence(ctx), Notes(ctx, p))
  }

  method Assess(ctx: FactorContext, p: Policy) returns (a: Assessment)
    ensures a == AssessmentOf(ctx, p)
  {
    var factors := ComputeFactors(ctx, p.weights);
    var score := Round2(TotalContribution(factors));
    var confidence, notes := ConfidenceAndUncertainty(ctx, p);
    a := Assessment(factors, score, p.LevelFor(score), confidence, notes);
  }
}
