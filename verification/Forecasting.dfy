/** Least-squares capacity forecasting over exact reals. */
module Forecasting {
  import opened Prelude
  import opened Reals

  datatype Point = Point(day: real, value: real)

  datatype CapacityError = TooFewPoints | SameDay | NonPositiveLimit

  // ---------------------------------------------------------------------------
  // The fit
  // ---------------------------------------------------------------------------

  function SumDays(ps: seq<Point>): real {
    if ps == [] then 0.0 else SumDays(ps[..|ps| - 1]) + ps[|ps| - 1].day
  }

  function SumValues(ps: seq<Point>): real {
    if ps == [] then 0.0 else SumValues(ps[..|ps| - 1]) + ps[|ps| - 1].value
  }

  /** The sum of (day - u) * (value - v). */
  function CoMoment(ps: seq<Point>, u: real, v: real): real {
    if ps == [] then 0.0
    else CoMoment(ps[..|ps| - 1], u, v) + Times(ps[|ps| - 1].day - u, ps[|ps| - 1].value - v)
  }

  /** The sum of the squares of (day - u). */
  function Spread(ps: seq<Point>, u: real): real {
    if ps == [] then 0.0
    else Spread(ps[..|ps| - 1], u) + Times(ps[|ps| - 1].day - u, ps[|ps| - 1].day - u)
  }

  datatype Line = Line(slope: real, intercept: real) {
    function At(day: real): real {
      Times(slope, day) + intercept
    }
  }

  function MeanDay(ps: seq<Point>): real
    requires ps != []
  {
    SumDays(ps) / |ps| as real
  }

  function MeanValue(ps: seq<Point>): real
    requires ps != []
  {
    SumValues(ps) / |ps| as real
  }

  function LinearRegression(ps: seq<Point>): Result<Line, CapacityError> {
    if |ps| < 2 then
      Err(TooFewPoints)
    else
      var mx, my := MeanDay(ps), MeanValue(ps);
      var numerator, denominator := CoMoment(ps, mx, my), Spread(ps, mx);
      if denominator == 0.0 then
        Err(SameDay)
      else
        var slope := numerator / denominator;
        Ok(Line(slope, my - Times(slope, mx)))
  }

  // ---------------------------------------------------------------------------
  // Residuals
  // ---------------------------------------------------------------------------

  function Residual(p: Point, l: Line): real {
    p.value - l.At(p.day)
  }

  function SumResiduals(ps: seq<Point>, l: Line): real {
    if ps == [] then 0.0 else SumResiduals(ps[..|ps| - 1], l) + Residual(ps[|ps| - 1], l)
  }

  function SumDayResiduals(ps: seq<Point>, l: Line): real {
    if ps == [] then 0.0
    else SumDayResiduals(ps[..|ps| - 1], l) + Times(ps[|ps| - 1].day, Residual(ps[|ps| - 1], l))
  }

  function SquaredError(ps: seq<Point>, l: Line): real {
    if ps == [] then 0.0
    else SquaredError(ps[..|ps| - 1], l) + Times(Residual(ps[|ps| - 1], l), Residual(ps[|ps| - 1], l))
  }

  /** How far apart two lines are on a day. */
  function Gap(l: Line, m: Line, day: real): real {
    l.At(day) - m.At(day)
  }

  function SquaredGap(ps: seq<Point>, l: Line, m: Line): real {
    if ps == [] then 0.0
    else SquaredGap(ps[..|ps| - 1], l, m) + Times(Gap(l, m, ps[|ps| - 1].day), Gap(l, m, ps[|ps| - 1].day))
  }

  /** The normal equations: the residuals, and the residuals weighted by day, sum to nothing. */
  predicate Normal(ps: seq<Point>, l: Line) {
    SumResiduals(ps, l) == 0.0 && SumDayResiduals(ps, l) == 0.0
  }

  lemma Linear(a: real, b: real, c: real)
    ensures Times(a, b + c) == Times(a, b) + Times(a, c)
    ensures Times(a, b - c) == Times(a, b) - Times(a, c)
    ensures Times(b, a) == Times(a, b)
    ensures Times(a, 0.0) == 0.0 && Times(a, 1.0) == a
  {
  }

  lemma Associate(a: real, b: real, c: real)
    ensures Times(a, Times(b, c)) == Times(Times(a, b), c)
  {
  }

  lemma {:induction false} ResidualSum(ps: seq<Point>, l: Line)
    ensures SumResiduals(ps, l) ==
            SumValues(ps) - Times(l.slope, SumDays(ps)) - Times(l.intercept, |ps| as real)
  {
    hide Times;
    Linear(l.slope, 0.0, 0.0);
    Linear(l.intercept, 0.0, 0.0);
    if ps != [] {
      var n := |ps| - 1;
      ResidualSum(ps[..n], l);
      Linear(l.slope, SumDays(ps[..n]), ps[n].day);
      Linear(l.intercept, n as real, 1.0);
    }
  }

  /** The residuals weighted by day, in terms of moments about any centre (u, v). */
  lemma {:induction false} DayResidualSum(ps: seq<Point>, l: Line, u: real, v: real)
    ensures SumDayResiduals(ps, l) ==
            CoMoment(ps, u, v) - Times(l.slope, Spread(ps, u))
            + Times(v - l.At(u), SumDays(ps) - Times(u, |ps| as real)) + Times(u, SumResiduals(ps, l))
  {
    hide Times, Line.At, Residual;
    var c := v - l.At(u);
    Linear(l.slope, 0.0, 0.0);
    Linear(c, 0.0, 0.0);
    Linear(u, 0.0, 0.0);
    if ps != [] {
      var n := |ps| - 1;
      var p := ps[n];
      DayResidualSum(ps[..n], l, u, v);
      DayResidualTerm(p, l, u, v);
      Linear(l.slope, Spread(ps[..n], u), Times(p.day - u, p.day - u));
      Linear(u, n as real, 1.0);
      Linear(u, SumResiduals(ps[..n], l), Residual(p, l));
      Linear(c, SumDays(ps[..n]) - Times(u, n as real), p.day - u);
    }
  }

  lemma DayResidualTerm(p: Point, l: Line, u: real, v: real)
    ensures Times(p.day, Residual(p, l)) ==
            Times(p.day - u, p.value - v) - Times(l.slope, Times(p.day - u, p.day - u))
            + Times(v - l.At(u), p.day - u) + Times(u, Residual(p, l))
  {
    hide Times;
    var x, y, a, c, r := p.day, p.value, l.slope, v - l.At(u), Residual(p, l);
    Linear(a, x, u);
    assert r == y - v - Times(a, x - u) + c;
    Linear(x - u, y - v, Times(a, x - u));
    Linear(x - u, y - v - Times(a, x - u), c);
    Associate(x - u, a, x - u);
    Associate(a, x - u, x - u);
    Linear(x - u, a, 0.0);
    Linear(c, x - u, 0.0);
    assert Times(x - u, r) == Times(x - u, y - v - Times(a, x - u)) + Times(x - u, c);
    Linear(r, x, u);
    Linear(x - u, r, 0.0);
    Linear(x, r, 0.0);
    Linear(u, r, 0.0);
  }

  /** Day offsets sum to nothing about their mean. */
  lemma MeansBalance(ps: seq<Point>)
    requires ps != []
    ensures SumDays(ps) == Times(MeanDay(ps), |ps| as real)
    ensures SumValues(ps) == Times(MeanValue(ps), |ps| as real)
  {
  }

  lemma QuotientTimes(a: real, b: real)
    requires b != 0.0
    ensures Times(a / b, b) == a
  {
  }

  /** The fitted line satisfies the normal equations. */
  lemma FitIsNormal(ps: seq<Point>)
    requires LinearRegression(ps).Ok?
    ensures Normal(ps, LinearRegression(ps).value)
  {
    hide Times;
    var l, mx, my, n := LinearRegression(ps).value, MeanDay(ps), MeanValue(ps), |ps| as real;
    MeansBalance(ps);
    assert l.At(mx) == my;
    ResidualSum(ps, l);
    Linear(n, Times(l.slope, mx), l.intercept);
    Linear(n, my, 0.0);
    Associate(l.slope, mx, n);
    Linear(l.intercept, n, 0.0);
    Linear(Times(l.slope, mx), n, 0.0);
    assert SumResiduals(ps, l) == 0.0;
    DayResidualSum(ps, l, mx, my);
    QuotientTimes(CoMoment(ps, mx, my), Spread(ps, mx));
    Linear(mx, 0.0, 0.0);
    Linear(0.0, 0.0, 0.0);
  }

  // ---------------------------------------------------------------------------
  // Optimality
  // ---------------------------------------------------------------------------

  /** Moving from one line to another changes the squared error by a cross term and the squared gap. */
  lemma {:induction false} ErrorExpands(ps: seq<Point>, l: Line, m: Line)
    ensures SquaredError(ps, m) == SquaredError(ps, l) + SquaredGap(ps, l, m)
            + Times(2.0, Times(l.slope - m.slope, SumDayResiduals(ps, l))
                         + Times(l.intercept - m.intercept, SumResiduals(ps, l)))
  {
    hide Times, Residual, Gap;
    var a, b := l.slope - m.slope, l.intercept - m.intercept;
    Linear(a, 0.0, 0.0);
    Linear(b, 0.0, 0.0);
    Linear(2.0, 0.0, 0.0);
    if ps != [] {
      var n := |ps| - 1;
      var p := ps[n];
      ErrorExpands(ps[..n], l, m);
      ErrorTerm(p, l, m);
      Linear(a, SumDayResiduals(ps[..n], l), Times(p.day, Residual(p, l)));
      Linear(b, SumResiduals(ps[..n], l), Residual(p, l));
      Linear(2.0, Times(a, SumDayResiduals(ps[..n], l)) + Times(b, SumResiduals(ps[..n], l)),
             Times(a, Times(p.day, Residual(p, l))) + Times(b, Residual(p, l)));
    }
  }

  lemma ErrorTerm(p: Point, l: Line, m: Line)
    ensures Times(Residual(p, m), Residual(p, m)) ==
            Times(Residual(p, l), Residual(p, l)) + Times(Gap(l, m, p.day), Gap(l, m, p.day))
            + Times(2.0, Times(l.slope - m.slope, Times(p.day, Residual(p, l)))
                         + Times(l.intercept - m.intercept, Residual(p, l)))
  {
    hide Times;
    var r, g, a, b, x := Residual(p, l), Gap(l, m, p.day), l.slope - m.slope, l.intercept - m.intercept, p.day;
    Linear(x, l.slope, m.slope);
    Linear(l.slope, x, 0.0);
    Linear(m.slope, x, 0.0);
    Linear(a, x, 0.0);
    assert g == Times(a, x) + b;
    assert Residual(p, m) == r + g;
    Square(r, g);
    Linear(r, Times(a, x), b);
    Linear(r, g, 0.0);
    Associate(a, x, r);
    Linear(Times(a, x), r, 0.0);
    Linear(b, r, 0.0);
  }

  lemma Square(r: real, g: real)
    ensures Times(r + g, r + g) == Times(r, r) + Times(g, g) + Times(2.0, Times(r, g))
  {
  }

  lemma {:induction false} GapNonNegative(ps: seq<Point>, l: Line, m: Line)
    ensures SquaredGap(ps, l, m) >= 0.0
    ensures SquaredGap(ps, l, m) == 0.0 ==> forall i :: 0 <= i < |ps| ==> Gap(l, m, ps[i].day) == 0.0
  {
    hide Times, Gap;
    if ps != [] {
      var n := |ps| - 1;
      GapNonNegative(ps[..n], l, m);
      SquareSign(Gap(l, m, ps[n].day));
      assert forall i :: 0 <= i < n ==> ps[..n][i] == ps[i];
    }
  }

  lemma PositiveProduct(g: real, h: real)
    requires g > 0.0 && h > 0.0
    ensures Times(g, h) > 0.0
  {
  }

  lemma NegatedSquare(g: real)
    ensures Times(-g, -g) == Times(g, g)
  {
  }

  lemma SquareSign(g: real)
    ensures Times(g, g) >= 0.0
    ensures Times(g, g) == 0.0 <==> g == 0.0
  {
    hide Times;
    if g > 0.0 {
      PositiveProduct(g, g);
    } else if g < 0.0 {
      PositiveProduct(-g, -g);
      NegatedSquare(g);
    } else {
      Linear(g, 0.0, 0.0);
    }
  }

  predicate SameDays(ps: seq<Point>) {
    forall i, j :: 0 <= i < j < |ps| ==> ps[i].day == ps[j].day
  }

  /** The spread about any centre vanishes exactly when every day is that centre. */
  lemma {:induction false} SpreadVanishes(ps: seq<Point>, u: real)
    ensures Spread(ps, u) >= 0.0
    ensures Spread(ps, u) == 0.0 <==> forall i :: 0 <= i < |ps| ==> ps[i].day == u
  {
    hide Times;
    if ps != [] {
      var n := |ps| - 1;
      SpreadVanishes(ps[..n], u);
      SquareSign(ps[n].day - u);
      assert forall i :: 0 <= i < n ==> ps[..n][i] == ps[i];
    }
  }

  lemma {:induction false} SumOfSameDays(ps: seq<Point>, u: real)
    requires forall i :: 0 <= i < |ps| ==> ps[i].day == u
    ensures SumDays(ps) == Times(u, |ps| as real)
  {
    hide Times;
    Linear(u, 0.0, 0.0);
    if ps != [] {
      var n := |ps| - 1;
      SumOfSameDays(ps[..n], u);
      Linear(u, n as real, 1.0);
    }
  }

  /** The fit is refused exactly for fewer than two points or points that share one day. */
  lemma RefusedExactly(ps: seq<Point>)
    ensures LinearRegression(ps) == Err(TooFewPoints) <==> |ps| < 2
    ensures LinearRegression(ps) == Err(SameDay) <==> |ps| >= 2 && SameDays(ps)
  {
    if |ps| >= 2 {
      SpreadVanishes(ps, MeanDay(ps));
      if SameDays(ps) {
        var u := ps[0].day;
        assert forall i :: 0 <= i < |ps| ==> ps[i].day == u;
        SumOfSameDays(ps, u);
        assert MeanDay(ps) == u;
      }
    }
  }

  /** Two lines that agree on two different days are the same line. */
  lemma AgreeTwice(l: Line, m: Line, x: real, y: real)
    requires x != y && Gap(l, m, x) == 0.0 && Gap(l, m, y) == 0.0
    ensures l == m
  {
    var a := l.slope - m.slope;
    assert (l.slope - m.slope) * (x - y) == 0.0;
    assert a == 0.0;
  }

  /** No line fits better, and only the fitted line fits as well. */
  lemma FitIsBest(ps: seq<Point>, m: Line)
    requires LinearRegression(ps).Ok?
    ensures var l := LinearRegression(ps).value;
            && SquaredError(ps, l) <= SquaredError(ps, m)
            && (SquaredError(ps, l) == SquaredError(ps, m) ==> l == m)
  {
    hide Times;
    var l := LinearRegression(ps).value;
    FitIsNormal(ps);
    ErrorExpands(ps, l, m);
    Linear(l.slope - m.slope, 0.0, 0.0);
    Linear(l.intercept - m.intercept, 0.0, 0.0);
    Linear(2.0, 0.0, 0.0);
    GapNonNegative(ps, l, m);
    RefusedExactly(ps);
    if SquaredError(ps, l) == SquaredError(ps, m) {
      var i, j :| 0 <= i < j < |ps| && ps[i].day != ps[j].day;
      AgreeTwice(l, m, ps[i].day, ps[j].day);
    }
  }

  lemma {:induction false} ExactLineHasNoError(ps: seq<Point>, m: Line)
    requires forall i :: 0 <= i < |ps| ==> ps[i].value == m.At(ps[i].day)
    ensures SquaredError(ps, m) == 0.0
  {
    hide Times, Line.At;
    if ps != [] {
      ExactLineHasNoError(ps[..|ps| - 1], m);
      SquareSign(0.0);
    }
  }

  lemma {:induction false} ErrorNonNegative(ps: seq<Point>, m: Line)
    ensures SquaredError(ps, m) >= 0.0
  {
    hide Times, Residual;
    if ps != [] {
      ErrorNonNegative(ps[..|ps| - 1], m);
      SquareSign(Residual(ps[|ps| - 1], m));
    }
  }

  /** A history that lies on a line is fitted by that line. */
  lemma ExactLineRecovered(ps: seq<Point>, m: Line)
    requires forall i :: 0 <= i < |ps| ==> ps[i].value == m.At(ps[i].day)
    ensures |ps| >= 2 && !SameDays(ps) ==> LinearRegression(ps) == Ok(m)
  {
    RefusedExactly(ps);
    if |ps| >= 2 && !SameDays(ps) {
      ExactLineHasNoError(ps, m);
      ErrorNonNegative(ps, LinearRegression(ps).value);
      FitIsBest(ps, m);
    }
  }

  // ---------------------------------------------------------------------------
  // Order of the history
  // ---------------------------------------------------------------------------

  lemma {:induction false} SumsWithout(ps: seq<Point>, i: nat, u: real, v: real)
    requires i < |ps|
    ensures SumDays(ps) == SumDays(Without(ps, i)) + ps[i].day
    ensures SumValues(ps) == SumValues(Without(ps, i)) + ps[i].value
    ensures CoMoment(ps, u, v) == CoMoment(Without(ps, i), u, v) + Times(ps[i].day - u, ps[i].value - v)
    ensures Spread(ps, u) == Spread(Without(ps, i), u) + Times(ps[i].day - u, ps[i].day - u)
    decreases |ps|
  {
    hide Times;
    var n := |ps| - 1;
    if i == n {
      assert Without(ps, i) == ps[..n];
    } else {
      SumsWithout(ps[..n], i, u, v);
      var rest := Without(ps, i);
      assert rest[..n - 1] == Without(ps[..n], i) && rest[n - 1] == ps[n];
    }
  }

  lemma RemoveOne(ps: seq<Point>, i: nat)
    requires i < |ps|
    ensures multiset(Without(ps, i)) == multiset(ps) - multiset{ps[i]}
  {
    assert ps == ps[..i] + ([ps[i]] + ps[i + 1..]);
    assert multiset(ps) == multiset(ps[..i]) + (multiset{ps[i]} + multiset(ps[i + 1..]));
  }

  lemma SameLength(ps: seq<Point>, qs: seq<Point>)
    requires multiset(ps) == multiset(qs)
    ensures |ps| == |qs|
  {
    assert |multiset(ps)| == |ps| && |multiset(qs)| == |qs|;
  }

  /** The last point of one history, found and taken out of the other. */
  lemma MatchLast(ps: seq<Point>, qs: seq<Point>) returns (i: nat)
    requires multiset(ps) == multiset(qs) && ps != []
    ensures i < |qs| && qs[i] == ps[|ps| - 1]
    ensures multiset(ps[..|ps| - 1]) == multiset(Without(qs, i))
  {
    var n := |ps| - 1;
    assert ps[n] in multiset(ps);
    assert ps[n] in multiset(qs);
    i :| 0 <= i < |qs| && qs[i] == ps[n];
    RemoveOne(ps, n);
    RemoveOne(qs, i);
    assert Without(ps, n) == ps[..n];
  }

  /** The sums depend only on which points there are. */
  lemma {:induction false} SumsPermute(ps: seq<Point>, qs: seq<Point>, u: real, v: real)
    requires multiset(ps) == multiset(qs)
    ensures |ps| == |qs| && SumDays(ps) == SumDays(qs) && SumValues(ps) == SumValues(qs)
    ensures CoMoment(ps, u, v) == CoMoment(qs, u, v) && Spread(ps, u) == Spread(qs, u)
    decreases |ps|
  {
    hide Times;
    SameLength(ps, qs);
    if ps != [] {
      var n := |ps| - 1;
      var i := MatchLast(ps, qs);
      SumsPermute(ps[..n], Without(qs, i), u, v);
      SumsWithout(qs, i, u, v);
    }
  }

  /** Shuffling the history changes neither the fit nor whether it is refused. */
  lemma FitIgnoresOrder(ps: seq<Point>, qs: seq<Point>)
    requires multiset(ps) == multiset(qs)
    ensures LinearRegression(ps) == LinearRegression(qs)
  {
    hide Times;
    SumsPermute(ps, qs, 0.0, 0.0);
    if |ps| >= 2 {
      SumsPermute(ps, qs, MeanDay(ps), MeanValue(ps));
    }
  }

  // ---------------------------------------------------------------------------
  // The forecast
  // ---------------------------------------------------------------------------

  datatype Risk = Fine | Warning | Critical {
    function Rank(): nat {
      match this
      case Fine => 0
      case Warning => 1
      case Critical => 2
    }
  }

  const CRITICAL_DAYS: real := 30.0
  const WARNING_DAYS: real := 90.0

  function ClassifyRisk(exhaustion: Option<real>, utilization: real, criticalDays: real, warningDays: real): Risk {
    if utilization >= 0.90 then Critical
    else if utilization >= 0.75 then
      if exhaustion.None? then Warning
      else if exhaustion.value <= criticalDays then Critical
      else Warning
    else if exhaustion.None? then Fine
    else if exhaustion.value <= criticalDays then Critical
    else if exhaustion.value <= warningDays then Warning
    else Fine
  }

  /** `d` runs out no later than `e`; no projection is later than any. */
  predicate NoLater(d: Option<real>, e: Option<real>) {
    e.None? || (d.Some? && d.value <= e.value)
  }

  /** Fuller and sooner never reads as less risky, whatever the thresholds. */
  lemma RiskMonotone(d: Option<real>, e: Option<real>, u: real, v: real, criticalDays: real, warningDays: real)
    requires NoLater(d, e) && v <= u
    ensures ClassifyRisk(e, v, criticalDays, warningDays).Rank() <= ClassifyRisk(d, u, criticalDays, warningDays).Rank()
  {
  }

  /** Stable insertion sort by day. */
  function Insert(p: Point, sorted: seq<Point>): seq<Point> {
    if sorted == [] || sorted[|sorted| - 1].day <= p.day then sorted + [p]
    else Insert(p, sorted[..|sorted| - 1]) + [sorted[|sorted| - 1]]
  }

  function SortByDay(ps: seq<Point>): seq<Point> {
    if ps == [] then [] else Insert(ps[|ps| - 1], SortByDay(ps[..|ps| - 1]))
  }

  predicate SortedByDay(ps: seq<Point>) {
    forall i, j :: 0 <= i < j < |ps| ==> ps[i].day <= ps[j].day
  }

  lemma {:induction false} InsertCounts(p: Point, sorted: seq<Point>)
    ensures multiset(Insert(p, sorted)) == multiset(sorted) + multiset{p}
  {
    if sorted != [] && sorted[|sorted| - 1].day > p.day {
      var n := |sorted| - 1;
      InsertCounts(p, sorted[..n]);
      assert sorted == sorted[..n] + [sorted[n]];
    }
  }

  lemma {:induction false} InsertKeeps(p: Point, sorted: seq<Point>)
    requires SortedByDay(sorted)
    ensures SortedByDay(Insert(p, sorted))
    ensures multiset(Insert(p, sorted)) == multiset(sorted) + multiset{p}
  {
    InsertCounts(p, sorted);
    if sorted != [] && sorted[|sorted| - 1].day > p.day {
      var n := |sorted| - 1;
      var front := Insert(p, sorted[..n]);
      InsertKeeps(p, sorted[..n]);
      forall i | 0 <= i < |front| ensures front[i].day <= sorted[n].day {
        MemberOf(front[i], front, p, sorted[..n]);
      }
    }
  }

  lemma MemberOf(x: Point, front: seq<Point>, p: Point, rest: seq<Point>)
    requires multiset(front) == multiset(rest) + multiset{p} && x in front
    ensures x == p || x in rest
  {
    assert x in multiset(front);
    assert x in multiset(rest) || x == p;
  }

  lemma {:induction false} SortKeeps(ps: seq<Point>)
    ensures SortedByDay(SortByDay(ps)) && multiset(SortByDay(ps)) == multiset(ps)
  {
    hide Insert;
    if ps != [] {
      var n := |ps| - 1;
      SortKeeps(ps[..n]);
      InsertKeeps(ps[n], SortByDay(ps[..n]));
      assert ps == ps[..n] + [ps[n]];
    }
  }

  datatype Forecast = Forecast(
    current: real,
    limit: real,
    utilization: real,
    growth: real,
    exhaustion: Option<real>,
    risk: Risk,
    samples: nat)

  /** Days from the latest sample until the fitted line reaches the limit, never negative. */
  function ProjectExhaustion(l: Line, limit: real, latestDay: real): Option<real> {
    if l.slope > 0.0 then
      var days := (limit - l.intercept) / l.slope - latestDay;
      Some(if days > 0.0 then days else 0.0)
    else
      None
  }

  function ForecastCapacity(history: seq<Point>, limit: real, criticalDays: real := CRITICAL_DAYS,
                            warningDays: real := WARNING_DAYS): Result<Forecast, CapacityError> {
    if limit <= 0.0 then
      Err(NonPositiveLimit)
    else
      var ordered := SortByDay(history);
      match LinearRegression(ordered)
      case Err(e) => Err(e)
      case Ok(l) =>
        assert ordered != [];
        var latest := ordered[|ordered| - 1];
        var utilization := latest.value / limit;
        var exhaustion := ProjectExhaustion(l, limit, latest.day);
        Ok(Forecast(latest.value, limit, utilization, l.slope, exhaustion,
                    ClassifyRisk(exhaustion, utilization, criticalDays, warningDays), |ordered|))
  }

  /** A growing line is below the limit before its crossing day, on it that day and above it after. */
  lemma CrossingDay(l: Line, limit: real, day: real)
    requires l.slope > 0.0
    ensures var crossing := (limit - l.intercept) / l.slope;
            && (day < crossing <==> l.At(day) < limit)
            && (day == crossing <==> l.At(day) == limit)
  {
    var crossing := (limit - l.intercept) / l.slope;
    assert crossing * l.slope == limit - l.intercept;
    assert l.At(day) - limit == l.slope * (day - crossing);
    if day < crossing {
      assert l.slope * (crossing - day) > 0.0;
    } else if day > crossing {
      assert l.slope * (day - crossing) > 0.0;
    }
  }

  /**
   * What the projection means: none exactly when the fitted line does not grow; a positive one is the first day,
   * counted from the latest sample, on which the line reaches the limit; zero exactly when it already has.
   */
  lemma ProjectionIsFirstCrossing(l: Line, limit: real, latestDay: real)
    ensures ProjectExhaustion(l, limit, latestDay).None? <==> l.slope <= 0.0
    ensures l.slope > 0.0 ==>
              var d := ProjectExhaustion(l, limit, latestDay).value;
              && 0.0 <= d
              && (d == 0.0 <==> l.At(latestDay) >= limit)
              && (d > 0.0 ==> l.At(latestDay + d) == limit)
              && (forall t :: latestDay <= t < latestDay + d ==> l.At(t) < limit)
  {
    if l.slope > 0.0 {
      var d := ProjectExhaustion(l, limit, latestDay).value;
      CrossingDay(l, limit, latestDay);
      CrossingDay(l, limit, latestDay + d);
      forall t | latestDay <= t < latestDay + d ensures l.At(t) < limit {
        CrossingDay(l, limit, t);
      }
    }
  }

  lemma InsertLast(p: Point, sorted: seq<Point>)
    ensures var r := Insert(p, sorted);
            && r != []
            && r[|r| - 1] == if sorted == [] || sorted[|sorted| - 1].day <= p.day then p else sorted[|sorted| - 1]
  {
  }

  /** Sorting is stable: of the samples of the latest day, the one listed last comes last. */
  lemma {:induction false} LatestLast(ps: seq<Point>) returns (i: nat)
    requires ps != []
    ensures i < |ps| && IsLatest(ps, i)
    ensures SortByDay(ps) != [] && SortByDay(ps)[|SortByDay(ps)| - 1] == ps[i]
  {
    hide Insert;
    var n := |ps| - 1;
    InsertLast(ps[n], SortByDay(ps[..n]));
    if n == 0 {
      i := 0;
    } else {
      i := LatestLast(ps[..n]);
      assert forall j :: 0 <= j < n ==> ps[..n][j].day <= ps[i].day && (i < j ==> ps[..n][j].day < ps[i].day);
      if ps[i].day <= ps[n].day {
        i := n;
      }
    }
  }

  /** No sample is later, and none listed after it is of the same day. */
  predicate IsLatest(history: seq<Point>, i: nat)
    requires i < |history|
  {
    forall j :: 0 <= j < |history| ==> history[j].day <= history[i].day && (i < j ==> history[j].day < history[i].day)
  }

  /** The days until the line reaches the limit, from the latest sample on: none if it never does. */
  ghost predicate Projects(days: Option<real>, l: Line, latest: Point, limit: real) {
    && (days.None? <==> l.slope <= 0.0)
    && (days.Some? ==>
          && days.value >= 0.0
          && (days.value == 0.0 <==> l.At(latest.day) >= limit)
          && (days.value > 0.0 ==> l.At(latest.day + days.value) == limit))
  }

  /** From 90% of the limit on, or within the critical days, critical; below 75% and beyond all thresholds, fine. */
  ghost predicate Rated(risk: Risk, days: Option<real>, latest: Point, limit: real, criticalDays: real, warningDays: real) {
    && (risk == Critical <==> latest.value >= 0.9 * limit || (days.Some? && days.value <= criticalDays))
    && (risk == Fine <==>
          latest.value < 0.75 * limit && (days.None? || (days.value > criticalDays && days.value > warningDays)))
  }

  lemma RatedExactly(days: Option<real>, latest: Point, limit: real, criticalDays: real, warningDays: real)
    requires limit > 0.0
    ensures Rated(ClassifyRisk(days, latest.value / limit, criticalDays, warningDays), days, latest, limit, criticalDays,
                  warningDays)
  {
    FractionReaches(latest.value, limit, 0.9);
    FractionReaches(latest.value, limit, 0.75);
  }

  lemma FractionReaches(value: real, limit: real, fraction: real)
    requires limit > 0.0
    ensures value / limit >= fraction <==> value >= fraction * limit
  {
    var u := value / limit;
    assert u * limit == value;
    if u >= fraction {
      assert (u - fraction) * limit >= 0.0;
    } else {
      assert (fraction - u) * limit > 0.0;
    }
  }

  /** A forecast made of a fitted line and the latest sample. */
  ghost predicate Follows(f: Forecast, l: Line, latest: Point, limit: real, criticalDays: real, warningDays: real) {
    && f.current == latest.value && f.limit == limit && f.utilization * limit == latest.value && f.growth == l.slope
    && Projects(f.exhaustion, l, latest, limit)
    && Rated(f.risk, f.exhaustion, latest, limit, criticalDays, warningDays)
  }

  lemma FollowsLine(f: Forecast, l: Line, latest: Point, limit: real, criticalDays: real, warningDays: real)
    requires limit > 0.0 && f.current == latest.value && f.limit == limit && f.growth == l.slope
    requires f.utilization == latest.value / limit && f.exhaustion == ProjectExhaustion(l, limit, latest.day)
    requires f.risk == ClassifyRisk(f.exhaustion, f.utilization, criticalDays, warningDays)
    ensures Follows(f, l, latest, limit, criticalDays, warningDays)
  {
    hide ClassifyRisk, ProjectExhaustion, Rated;
    ProjectionIsFirstCrossing(l, limit, latest.day);
    RatedExactly(f.exhaustion, latest, limit, criticalDays, warningDays);
  }

  /**
   * The forecast fits the history itself: sorting only picks the latest sample, of several the one listed last, and
   * utilisation, projection and risk are those of that sample on the line fitted to the history.
   */
  lemma ForecastFitsHistory(history: seq<Point>, limit: real, criticalDays: real, warningDays: real)
    ensures var f, fit := ForecastCapacity(history, limit, criticalDays, warningDays), LinearRegression(history);
            && (limit <= 0.0 ==> f == Err(NonPositiveLimit))
            && (limit > 0.0 && fit.Err? ==> f == Err(fit.error))
            && (limit > 0.0 && fit.Ok? ==>
                  && f.Ok? && f.value.samples == |history|
                  && exists i ::
                       && 0 <= i < |history|
                       && IsLatest(history, i)
                       && Follows(f.value, fit.value, history[i], limit, criticalDays, warningDays))
    ensures ForecastCapacity(history, limit) == ForecastCapacity(history, limit, 30.0, 90.0)
  {
    hide LinearRegression, SortByDay, ClassifyRisk, ProjectExhaustion, Follows;
    SortKeeps(history);
    var ordered := SortByDay(history);
    FitIgnoresOrder(ordered, history);
    SumsPermute(ordered, history, 0.0, 0.0);
    NoFit();
    if limit > 0.0 && LinearRegression(ordered).Ok? {
      var i := LatestLast(history);
      FollowsLine(ForecastCapacity(history, limit, criticalDays, warningDays).value, LinearRegression(history).value,
                  history[i], limit, criticalDays, warningDays);
    }
  }

  lemma NoFit()
    ensures LinearRegression([]).Err?
  {
  }
}
