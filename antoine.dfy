/** The decision logic of the Antoine vapour-pressure engine of core/antoine.py:
    log10(P) = A - B/(T + C) (or ln(P), by the `base` option), with T in kelvin and P in pascal.
    The least-squares solver is a parameter (`solve`), and so are the floating-point functions
    (`Numerics`); everything the engine decides around them is modelled. */
module Antoine {
  import opened Wrappers
  import opened Text
  import opened Vectors
  import opened Sorting

  // ---------------------------------------------------------------- numerics

  /** numpy's and Python's transcendental functions, the median, the slope `np.polyfit(x, y, 1)`
      returns, and what numpy's `a / 0.0` yields (an infinity or NaN). */
  datatype Numerics = Numerics(
    log10: real -> real,
    ln: real -> real,
    pow10: real -> real,
    exp: real -> real,
    sqrt: real -> real,
    median: seq<real> -> real,
    slope: (seq<real>, seq<real>) -> real,
    divByZero: real -> real)

  /** `math.sqrt` returns the non-negative square root. */
  ghost predicate SqrtLaw(N: Numerics) {
    forall x: real :: 0.0 <= x ==> 0.0 <= N.sqrt(x) && N.sqrt(x) * N.sqrt(x) == x
  }

  /** `10 ** x` and `exp(x)` are positive, and the logarithms undo them. */
  ghost predicate PowerLaws(N: Numerics) {
    && (forall x: real :: 0.0 < N.pow10(x) && N.log10(N.pow10(x)) == x)
    && (forall x: real :: 0.0 < N.exp(x) && N.ln(N.exp(x)) == x)
  }

  /** numpy's element-wise `a / b`, which does not raise at `b == 0`. */
  function NumpyDiv(N: Numerics, a: real, b: real): real {
    if b != 0.0 then a / b else N.divByZero(a)
  }

  // ---------------------------------------------------------------- units and base

  const KelvinNames: set<string> := {"k", "kelvin"}
  const CelsiusNames: set<string> := {"c", "degc", "celsius", "\U{B0}c"}
  const PressureNames: set<string> := {"pa", "bar", "kpa", "atm", "psi"}

  /** The offset `fit_antoine` and `calc` add to a temperature to bring it to kelvin, chosen by the
      lower-cased unit name; None for a name neither accepts. */
  function KelvinOffset(unit: string): Option<real> {
    var u := Lower(unit);
    if u in KelvinNames then Some(0.0)
    else if u in CelsiusNames then Some(273.15)
    else None
  }

  /** The factor `fit_antoine` multiplies a pressure by to bring it to pascal, chosen by the
      lower-cased unit name; None for a name it rejects. Every factor is positive. */
  function PressureFactor(unit: string): (r: Option<real>)
    ensures r.Some? ==> 0.0 < r.value
  {
    var u := Lower(unit);
    if u == "pa" then Some(1.0)
    else if u == "bar" then Some(100000.0)
    else if u == "kpa" then Some(1000.0)
    else if u == "atm" then Some(101325.0)
    else if u == "psi" then Some(6894.76)
    else None
  }

  lemma LowerIdempotent(s: string)
    ensures Lower(Lower(s)) == Lower(s)
  {
    assert forall i :: 0 <= i < |s| ==> Lower(Lower(s))[i] == Lower(s)[i];
  }

  /** Unit names are matched without regard to case: a name and its lower-cased form select the
      same conversion. */
  lemma UnitNamesIgnoreCase(unit: string)
    ensures KelvinOffset(unit) == KelvinOffset(Lower(unit))
    ensures PressureFactor(unit) == PressureFactor(Lower(unit))
  {
    LowerIdempotent(unit);
  }

  /** `outlier_report`'s temperature rule: a Celsius name adds 273.15 and any other name, known or
      not, is read as kelvin. Where `fit_antoine` accepts the unit, the two agree. */
  function LenientKelvinOffset(unit: string): (r: real)
    ensures KelvinOffset(unit).Some? ==> r == KelvinOffset(unit).value
    ensures KelvinOffset(unit).None? ==> r == 0.0
  {
    if Lower(unit) in CelsiusNames then 273.15 else 0.0
  }

  /** `outlier_report`'s pressure rule: the same factors as `fit_antoine`, and an unknown name is
      read as pascal. */
  function LenientPressureFactor(unit: string): (r: real)
    ensures 0.0 < r
    ensures PressureFactor(unit).Some? ==> r == PressureFactor(unit).value
    ensures PressureFactor(unit).None? ==> r == 1.0
  {
    PressureFactor(unit).GetOr(1.0)
  }

  /** The two forms of the equation. */
  datatype Base = Log10 | Ln

  /** The `base` option, lower-cased: "log10" or "ln"; None for any other name. */
  function BaseOf(name: string): Option<Base> {
    if Lower(name) == "log10" then Some(Log10)
    else if Lower(name) == "ln" then Some(Ln)
    else None
  }

  function BaseName(b: Base): string {
    match b
    case Log10 => "log10"
    case Ln => "ln"
  }

  lemma BaseNameRoundTrip(b: Base)
    ensures BaseOf(BaseName(b)) == Some(b)
  {
  }

  function Log(N: Numerics, b: Base, x: real): real {
    match b
    case Log10 => N.log10(x)
    case Ln => N.ln(x)
  }

  function Power(N: Numerics, b: Base, x: real): real {
    match b
    case Log10 => N.pow10(x)
    case Ln => N.exp(x)
  }

  /** `np.log10(p)` or `np.log(p)`, element by element. */
  function LogAll(N: Numerics, b: Base, p: seq<real>): (r: seq<real>)
    ensures |r| == |p|
    ensures forall i :: 0 <= i < |p| ==> r[i] == Log(N, b, p[i])
  {
    seq(|p|, i requires 0 <= i < |p| => Log(N, b, p[i]))
  }

  /** `1.0 / t`, element by element. */
  function Reciprocals(N: Numerics, t: seq<real>): (r: seq<real>)
    ensures |r| == |t|
    ensures forall i :: 0 <= i < |t| ==> r[i] == NumpyDiv(N, 1.0, t[i])
  {
    seq(|t|, i requires 0 <= i < |t| => NumpyDiv(N, 1.0, t[i]))
  }

  /** The right-hand side A - B/(T + C) for one temperature. */
  function AntoineLog(N: Numerics, a: real, b: real, c: real, t: real): real {
    a - NumpyDiv(N, b, t + c)
  }

  /** The pressures the equation predicts at the temperatures `tK`. */
  function Predicted(N: Numerics, base: Base, a: real, b: real, c: real, tK: seq<real>): (r: seq<real>)
    ensures |r| == |tK|
    ensures forall i :: 0 <= i < |tK| ==> r[i] == Power(N, base, AntoineLog(N, a, b, c, tK[i]))
  {
    seq(|tK|, i requires 0 <= i < |tK| => Power(N, base, AntoineLog(N, a, b, c, tK[i])))
  }

  // ---------------------------------------------------------------- fit_antoine

  datatype Bounds = Bounds(lower: (real, real, real), upper: (real, real, real))

  /** The bounds on (A, B, C) used when none are given. */
  const DefaultBounds: Bounds := Bounds((-200.0, 0.000001, -10000.0), (200.0, 10000000.0, 10000.0))

  /** The keyword arguments of `fit_antoine`; None stands for an argument left at `None`. */
  datatype FitOptions = FitOptions(
    base: string,
    tUnit: string,
    pUnit: string,
    fitInLogSpace: bool,
    weights: Option<seq<real>>,
    x0: Option<(real, real, real)>,
    bounds: Option<Bounds>,
    maxNfev: int,
    validate: bool,
    minMarginKelvin: real,
    loss: string,
    fScale: Option<real>)

  const DefaultOptions: FitOptions :=
    FitOptions("log10", "K", "Pa", true, None, None, None, 5000, true, 1.0, "linear", None)

  /** What is handed to the least-squares solver: the data in kelvin and pascal, the log target
      `y`, the square-root weights, and the solver settings. */
  datatype Problem = Problem(
    tK: seq<real>,
    pPa: seq<real>,
    y: seq<real>,
    w: seq<real>,
    base: Base,
    fitInLogSpace: bool,
    x0: (real, real, real),
    bounds: Bounds,
    maxNfev: int,
    loss: string,
    fScale: real)

  /** What the solver returns: the fitted (A, B, C), its success flag, message and cost. */
  datatype Solution = Solution(a: real, b: real, c: real, success: bool, message: string, cost: real)

  /** The validation warnings, in the order they are checked. */
  datatype Warning =
    | RiskyMargin(denomMin: real, margin: real)   // min(T + C) is at or below the margin
    | NonMonotonic                                // the fitted curve is not strictly increasing in T
    | SmallB                                      // B < 10
    | LargeB                                      // B > 1e6

  function Rank(w: Warning): nat {
    match w
    case RiskyMargin(_, _) => 0
    case NonMonotonic => 1
    case SmallB => 2
    case LargeB => 3
  }

  /** The fit report, without the RMSE/MAE/R² metrics and the covariance. */
  datatype FitReport = FitReport(
    a: real, b: real, c: real,
    base: string,
    pUnit: string,
    tUnitInternal: string,
    fitInLogSpace: bool,
    success: bool,
    message: string,
    cost: real,
    warnings: seq<Warning>,
    tMinK: real,
    tMaxK: real,
    loss: string,
    fScale: real)

  /** `{}` for rejected input, a raised exception, or the report (with the problem that was
      posed to the solver). */
  datatype FitOutcome = Rejected | Raised(error: Error) | Fitted(report: FitReport, problem: Problem)

  /** The inputs `fit_antoine` answers with `{}`: mismatched or too few points, an unknown
      temperature or pressure unit, a pressure that is not positive once converted, an unknown
      base, or weights of the wrong length. */
  predicate Rejects(tData: seq<real>, pData: seq<real>, opts: FitOptions) {
    || |tData| != |pData|
    || |tData| < 3
    || KelvinOffset(opts.tUnit).None?
    || BadPressures(pData, opts.pUnit)
    || BaseOf(opts.base).None?
    || (opts.weights.Some? && |opts.weights.value| != |tData|)
  }

  /** An unknown pressure unit, or a pressure that is not positive once converted. */
  predicate BadPressures(pData: seq<real>, pUnit: string) {
    || PressureFactor(pUnit).None?
    || (exists i :: 0 <= i < |pData| && pData[i] * PressureFactor(pUnit).value <= 0.0)
  }

  /** Since every pressure factor is positive, a converted pressure is non-positive exactly when
      the given one is. */
  lemma {:induction false} RejectedPressures(pData: seq<real>, unit: string, i: nat)
    requires PressureFactor(unit).Some? && i < |pData|
    ensures pData[i] * PressureFactor(unit).value <= 0.0 <==> pData[i] <= 0.0
  {
    var f := PressureFactor(unit).value;
    if pData[i] > 0.0 {
      assert pData[i] * f > 0.0;
    }
  }

  /** The weights handed to the solver: all 1 when none are given, otherwise the square roots of
      the given weights clipped at 0, so that each squared weight is the clipped given weight. */
  function Weights(N: Numerics, raw: Option<seq<real>>, n: nat): (w: seq<real>)
    requires raw.Some? ==> |raw.value| == n
    ensures |w| == n
    ensures raw.None? ==> forall i :: 0 <= i < n ==> w[i] == 1.0
    ensures raw.Some? && SqrtLaw(N) ==>
              forall i :: 0 <= i < n ==> 0.0 <= w[i] && w[i] * w[i] == Max2(raw.value[i], 0.0)
  {
    if raw.None? then seq(n, i => 1.0)
    else
      var w := seq(n, i requires 0 <= i < n => N.sqrt(Max2(raw.value[i], 0.0)));
      assert SqrtLaw(N) ==> forall i :: 0 <= i < n ==> 0.0 <= w[i] && w[i] * w[i] == Max2(raw.value[i], 0.0) by {
        if SqrtLaw(N) {
          forall i | 0 <= i < n ensures 0.0 <= w[i] && w[i] * w[i] == Max2(raw.value[i], 0.0) {
            var x := Max2(raw.value[i], 0.0);
            assert w[i] == N.sqrt(x);
          }
        }
      }
      w
  }

  /** The default C0: -50, unless that brings the smallest T + C0 down to the margin, in which case
      C0 is chosen so that the smallest T + C0 is 10. */
  function DefaultC0(tK: seq<real>, margin: real): (c0: real)
    requires |tK| > 0
    ensures c0 == -50.0 <==> margin < Min(tK) - 50.0 || Min(tK) == 60.0
    ensures c0 == -50.0 || Min(Shift(tK, c0)) == 10.0
    ensures margin < Min(Shift(tK, c0)) || Min(Shift(tK, c0)) == 10.0
  {
    MinShift(tK, -50.0);
    var c0 := if Min(Shift(tK, -50.0)) <= margin then -Min(tK) + 10.0 else -50.0;
    MinShift(tK, c0);
    c0
  }

  /** What computing the default B0 raises, if anything: `np.polyfit` on 1/T meets an infinite
      abscissa when some temperature is 0 K and fails in `lstsq` (LinAlgError); otherwise the
      ratio divides by a zero mean temperature (ZeroDivisionError). */
  function GuessFault(tK: seq<real>): (r: Option<Error>)
    requires |tK| > 0
    ensures r.None? <==> 0.0 !in tK && Mean(tK) != 0.0
    ensures 0.0 in tK ==> r == Some(LinAlgError)
    ensures 0.0 !in tK && Mean(tK) == 0.0 ==> r == Some(ZeroDivision)
  {
    if 0.0 in tK then Some(LinAlgError)
    else if Mean(tK) == 0.0 then Some(ZeroDivision)
    else None
  }

  /** B0 before its sanity check: |slope of y against 1/T| × (mean(T + C0) / mean(T))². */
  function RoughB0(N: Numerics, tK: seq<real>, y: seq<real>, c0: real): real
    requires |tK| > 0 && GuessFault(tK).None?
  {
    var m := N.slope(Reciprocals(N, tK), y);
    var ratio := Mean(Shift(tK, c0)) / Mean(tK);
    Abs(m) * (ratio * ratio)
  }

  /** The default B0: the rough estimate, replaced by 2000 when it is not above 1e-6; so B0 is
      always above 1e-6, the lower bound on B. */
  function DefaultB0(N: Numerics, tK: seq<real>, y: seq<real>, c0: real): (b0: real)
    requires |tK| > 0 && GuessFault(tK).None?
    ensures 0.000001 < b0
    ensures 0.000001 < RoughB0(N, tK, y, c0) ==> b0 == RoughB0(N, tK, y, c0)
    ensures RoughB0(N, tK, y, c0) <= 0.000001 ==> b0 == 2000.0
  {
    var rough := RoughB0(N, tK, y, c0);
    if rough <= 0.000001 then 2000.0 else rough
  }

  /** The default f_scale for a lower-cased loss name: 1 for the linear loss, 0.02 in log space,
      and in pressure space 2% of the median pressure but never below 1 pascal. */
  function DefaultFScale(N: Numerics, loss: string, fitInLogSpace: bool, pPa: seq<real>): (f: real)
    ensures 0.0 < f
    ensures loss == "linear" ==> f == 1.0
    ensures loss != "linear" && fitInLogSpace ==> f == 0.02
    ensures loss != "linear" && !fitInLogSpace ==>
              1.0 <= f && N.median(pPa) * 0.02 <= f && (f == 1.0 || f == N.median(pPa) * 0.02)
  {
    if loss != "linear" then (if fitInLogSpace then 0.02 else Max2(1.0, N.median(pPa) * 0.02))
    else 1.0
  }

  /** The bounds handed to the solver: the given ones, or the defaults. */
  function BoundsOf(opts: FitOptions): Bounds {
    if opts.bounds.Some? then opts.bounds.value else DefaultBounds
  }

  /** What building the default starting point raises: nothing when x0 is given, otherwise the
      fault of the B0 guess on the temperatures in kelvin. */
  function StartFault(tData: seq<real>, opts: FitOptions): Option<Error>
    requires |tData| > 0 && KelvinOffset(opts.tUnit).Some?
  {
    if opts.x0.Some? then None else GuessFault(Shift(tData, KelvinOffset(opts.tUnit).value))
  }

  /** The starting point handed to the solver: the given x0, or (mean y, B0, C0). */
  function StartingPoint(N: Numerics, tData: seq<real>, pData: seq<real>, opts: FitOptions): (real, real, real)
    requires !Rejects(tData, pData, opts) && StartFault(tData, opts).None?
  {
    if opts.x0.Some? then opts.x0.value
    else
      var tK := Shift(tData, KelvinOffset(opts.tUnit).value);
      var y := LogAll(N, BaseOf(opts.base).value, Scale(pData, PressureFactor(opts.pUnit).value));
      var c0 := DefaultC0(tK, opts.minMarginKelvin);
      (Mean(y), DefaultB0(N, tK, y, c0), c0)
  }

  // ---------------------------------------------------------------- least_squares argument checks

  /** The loss names `scipy.optimize.least_squares` implements. */
  const ImplementedLosses: set<string> := {"linear", "soft_l1", "huber", "cauchy", "arctan"}

  /** Every lower bound lies strictly below its upper bound. */
  predicate BoundsOrdered(b: Bounds) {
    && b.lower.0 < b.upper.0
    && b.lower.1 < b.upper.1
    && b.lower.2 < b.upper.2
  }

  /** The point lies within the bounds, ends included. */
  predicate Feasible(x: (real, real, real), b: Bounds) {
    && b.lower.0 <= x.0 <= b.upper.0
    && b.lower.1 <= x.1 <= b.upper.1
    && b.lower.2 <= x.2 <= b.upper.2
  }

  /** The `ValueError` `least_squares` raises before its first step, from the first of its argument
      checks that fails, in scipy's order: an unknown loss, a `max_nfev` that is not positive,
      a lower bound not strictly below its upper bound, a starting point outside the bounds.
      None when the solver runs. */
  function SolverFault(loss: string, maxNfev: int, bounds: Bounds, x0: (real, real, real)): (r: Option<Error>)
    ensures r.None? <==> loss in ImplementedLosses && 0 < maxNfev && BoundsOrdered(bounds) && Feasible(x0, bounds)
    ensures r.Some? ==> r.value.ValueError?
    ensures loss !in ImplementedLosses ==> r == Some(ValueError("loss"))
    ensures loss in ImplementedLosses && 0 < maxNfev && BoundsOrdered(bounds) && !Feasible(x0, bounds) ==>
              r == Some(ValueError("x0"))
  {
    if loss !in ImplementedLosses then Some(ValueError("loss"))
    else if maxNfev <= 0 then Some(ValueError("max_nfev"))
    else if !BoundsOrdered(bounds) then Some(ValueError("bounds"))
    else if !Feasible(x0, bounds) then Some(ValueError("x0"))
    else None
  }

  /** The default bounds are ordered; so with the default loss, `max_nfev` and bounds, the solver
      refuses exactly the starting points outside the default bounds. */
  lemma DefaultSolverSettings(x0: (real, real, real))
    ensures BoundsOrdered(DefaultBounds)
    ensures SolverFault(Lower(DefaultOptions.loss), DefaultOptions.maxNfev, DefaultBounds, x0).None?
            <==> Feasible(x0, DefaultBounds)
  {
    assert Lower(DefaultOptions.loss) == "linear";
  }

  /** A starting point with B = 0 lies below the default lower bound on B, so `least_squares`
      refuses it: the call `fit_antoine(..., x0=(0, 0, 0))` raises. */
  lemma ZeroStartIsInfeasible()
    ensures SolverFault(Lower(DefaultOptions.loss), DefaultOptions.maxNfev, DefaultBounds, (0.0, 0.0, 0.0))
            == Some(ValueError("x0"))
  {
    assert Lower(DefaultOptions.loss) == "linear";
  }

  /** The problem `fit_antoine` poses for accepted input: data converted to kelvin and pascal, the
      log of the pressures in the chosen base, the weights, and each option or its default. */
  predicate PosedBy(N: Numerics, tData: seq<real>, pData: seq<real>, opts: FitOptions, p: Problem)
    requires !Rejects(tData, pData, opts) && StartFault(tData, opts).None?
  {
    && p.tK == Shift(tData, KelvinOffset(opts.tUnit).value)
    && p.pPa == Scale(pData, PressureFactor(opts.pUnit).value)
    && p.base == BaseOf(opts.base).value
    && p.y == LogAll(N, p.base, p.pPa)
    && p.w == Weights(N, opts.weights, |tData|)
    && p.fitInLogSpace == opts.fitInLogSpace
    && p.x0 == StartingPoint(N, tData, pData, opts)
    && p.bounds == BoundsOf(opts)
    && p.maxNfev == opts.maxNfev
    && p.loss == Lower(opts.loss)
    && p.fScale == (if opts.fScale.Some? then opts.fScale.value
                    else DefaultFScale(N, Lower(opts.loss), opts.fitInLogSpace, p.pPa))
  }

  /** Some neighbouring pair along `s` fails to increase: `np.any(np.diff(s) <= 0)`. */
  predicate NotStrictlyIncreasing(s: seq<real>) {
    exists k :: 0 <= k < |s| - 1 && s[k + 1] <= s[k]
  }

  /** Which validation rules fire: min(T + C) at or below the margin, a fitted curve that does
      not rise strictly along the temperature-sorted data, B below 10, B above 1e6. */
  datatype Checks = Checks(riskyMargin: bool, nonMonotonic: bool, smallB: bool, largeB: bool)

  function ChecksOf(tK: seq<real>, pHat: seq<real>, b: real, c: real, margin: real): Checks
    requires |tK| > 0 && |pHat| == |tK|
  {
    Checks(Min(Shift(tK, c)) <= margin, NotStrictlyIncreasing(Gather(pHat, Argsort(tK))),
           b < 10.0, b > 1000000.0)
  }

  function Emit(fires: bool, w: Warning): seq<Warning> {
    if fires then [w] else []
  }

  /** The warning list for the rules that fire, in the order the rules are checked. */
  function Warnings(k: Checks, denomMin: real, margin: real): seq<Warning> {
    Emit(k.riskyMargin, RiskyMargin(denomMin, margin)) + Emit(k.nonMonotonic, NonMonotonic)
    + Emit(k.smallB, SmallB) + Emit(k.largeB, LargeB)
  }

  /** Ranks strictly increase along `ws`: the rule order, with no repeats. */
  predicate RankOrdered(ws: seq<Warning>) {
    forall i, j :: 0 <= i < j < |ws| ==> Rank(ws[i]) < Rank(ws[j])
  }

  lemma {:induction false} AppendRankOrdered(xs: seq<Warning>, ys: seq<Warning>, bound: nat)
    requires RankOrdered(xs) && RankOrdered(ys)
    requires forall x :: x in xs ==> Rank(x) < bound
    requires forall y :: y in ys ==> bound <= Rank(y)
    ensures RankOrdered(xs + ys)
  {
    var zs := xs + ys;
    forall i, j | 0 <= i < j < |zs| ensures Rank(zs[i]) < Rank(zs[j]) {
      if j < |xs| {
        assert zs[i] == xs[i] && zs[j] == xs[j];
      } else if |xs| <= i {
        assert zs[i] == ys[i - |xs|] && zs[j] == ys[j - |xs|];
      } else {
        assert zs[i] in xs && zs[j] == ys[j - |xs|] && zs[j] in ys;
      }
    }
  }

  /** The warnings follow the order of the rules, with no repeats. */
  lemma {:induction false} WarningsOrdered(k: Checks, denomMin: real, margin: real)
    ensures RankOrdered(Warnings(k, denomMin, margin))
  {
    var e0 := Emit(k.riskyMargin, RiskyMargin(denomMin, margin));
    var e1 := Emit(k.nonMonotonic, NonMonotonic);
    var e2 := Emit(k.smallB, SmallB);
    var e3 := Emit(k.largeB, LargeB);
    AppendRankOrdered(e0, e1, 1);
    assert forall x :: x in e0 + e1 ==> x in e0 || x in e1;
    AppendRankOrdered(e0 + e1, e2, 2);
    assert forall x :: x in e0 + e1 + e2 ==> x in e0 + e1 || x in e2;
    AppendRankOrdered(e0 + e1 + e2, e3, 3);
  }

  /** Each warning is in the list exactly when its rule fires, and the list holds one warning per
      rule that fires. */
  lemma {:induction false} WarningsMembership(k: Checks, denomMin: real, margin: real)
    ensures var ws := Warnings(k, denomMin, margin);
      && (RiskyMargin(denomMin, margin) in ws <==> k.riskyMargin)
      && (forall w :: w in ws && w.RiskyMargin? ==> w == RiskyMargin(denomMin, margin))
      && (NonMonotonic in ws <==> k.nonMonotonic)
      && (SmallB in ws <==> k.smallB)
      && (LargeB in ws <==> k.largeB)
      && |ws| == (if k.riskyMargin then 1 else 0) + (if k.nonMonotonic then 1 else 0)
                 + (if k.smallB then 1 else 0) + (if k.largeB then 1 else 0)
  {
    var e0 := Emit(k.riskyMargin, RiskyMargin(denomMin, margin));
    var e1 := Emit(k.nonMonotonic, NonMonotonic);
    var e2 := Emit(k.smallB, SmallB);
    var e3 := Emit(k.largeB, LargeB);
    assert forall w :: w in e0 + e1 + e2 + e3 <==> w in e0 || w in e1 || w in e2 || w in e3;
  }

  /** The small-B and large-B rules never both fire. */
  lemma AtMostThreeWarnings(tK: seq<real>, pHat: seq<real>, b: real, c: real, margin: real)
    requires |tK| > 0 && |pHat| == |tK|
    ensures |Warnings(ChecksOf(tK, pHat, b, c, margin), Min(Shift(tK, c)), margin)| <= 3
  {
    WarningsMembership(ChecksOf(tK, pHat, b, c, margin), Min(Shift(tK, c)), margin);
  }

  /** The validation block: appends each warning whose rule fires, in the order of the rules. */
  method ValidationWarnings(tK: seq<real>, pHat: seq<real>, b: real, c: real, margin: real)
    returns (ws: seq<Warning>)
    requires |tK| > 0 && |pHat| == |tK|
    ensures ws == Warnings(ChecksOf(tK, pHat, b, c, margin), Min(Shift(tK, c)), margin)
  {
    ws := [];
    var denomMin := Min(Shift(tK, c));
    if denomMin <= margin {
      ws := ws + [RiskyMargin(denomMin, margin)];
    }
    var idx := Argsort(tK);
    if NotStrictlyIncreasing(Gather(pHat, idx)) {
      ws := ws + [NonMonotonic];
    }
    if b < 10.0 {
      ws := ws + [SmallB];
    }
    if b > 1000000.0 {
      ws := ws + [LargeB];
    }
  }

  /** The vectors `fit_antoine` derives from accepted input before choosing a starting point. */
  datatype Prepared = Prepared(tK: seq<real>, pPa: seq<real>, base: Base, y: seq<real>, w: seq<real>)

  /** The temperature conversion: the data unchanged for a kelvin name, shifted by 273.15 for a
      Celsius name, None (`{}`) for any other name. */
  method ToKelvin(tData: seq<real>, tUnit: string) returns (r: Option<seq<real>>)
    ensures r.None? <==> KelvinOffset(tUnit).None?
    ensures r.Some? ==> r.value == Shift(tData, KelvinOffset(tUnit).value)
  {
    var unit := Lower(tUnit);
    if unit in KelvinNames {
      assert tData == Shift(tData, 0.0);
      return Some(tData);
    } else if unit in CelsiusNames {
      return Some(Shift(tData, 273.15));
    }
    return None;
  }

  /** The pressure conversion and the positivity check: None (`{}`) for an unknown unit or for a
      converted pressure that is not positive. */
  method ToPascal(pData: seq<real>, pUnit: string) returns (r: Option<seq<real>>)
    ensures r.None? <==> BadPressures(pData, pUnit)
    ensures r.Some? ==> r.value == Scale(pData, PressureFactor(pUnit).value)
    ensures r.Some? ==> forall i :: 0 <= i < |r.value| ==> 0.0 < r.value[i]
  {
    var factor := PressureFactor(pUnit);
    if factor.None? {
      return None;
    }
    var pPa := Scale(pData, factor.value);
    if exists i :: 0 <= i < |pPa| && pPa[i] <= 0.0 {
      return None;
    }
    return Some(pPa);
  }

  /** The input checks and conversions: `{}` for rejected input, otherwise the data in kelvin and
      pascal, the chosen base, the log target and the weights. */
  method Prepare(N: Numerics, tData: seq<real>, pData: seq<real>, opts: FitOptions) returns (r: Option<Prepared>)
    ensures r.None? <==> Rejects(tData, pData, opts)
    ensures r.Some? ==>
              && r.value.tK == Shift(tData, KelvinOffset(opts.tUnit).value)
              && r.value.pPa == Scale(pData, PressureFactor(opts.pUnit).value)
              && r.value.base == BaseOf(opts.base).value
              && r.value.y == LogAll(N, r.value.base, r.value.pPa)
              && r.value.w == Weights(N, opts.weights, |tData|)
  {
    if |tData| != |pData| || |tData| < 3 {
      return None;
    }
    var tK := ToKelvin(tData, opts.tUnit);
    if tK.None? {
      return None;
    }
    var pPa := ToPascal(pData, opts.pUnit);
    if pPa.None? {
      return None;
    }
    var base := BaseOf(opts.base);
    if base.None? {
      return None;
    }
    var y := LogAll(N, base.value, pPa.value);
    if opts.weights.Some? && |opts.weights.value| != |tK.value| {
      return None;
    }
    assert !Rejects(tData, pData, opts);
    var w := Weights(N, opts.weights, |tK.value|);
    return Some(Prepared(tK.value, pPa.value, base.value, y, w));
  }

  /** The default C0: start from -50 and move it when the smallest T + C0 is at or below the
      margin. */
  method GuessC0(tK: seq<real>, margin: real) returns (c0: real)
    requires |tK| > 0
    ensures c0 == DefaultC0(tK, margin)
  {
    c0 := -50.0;
    if Min(Shift(tK, c0)) <= margin {
      c0 := -Min(tK) + 10.0;
    }
  }

  /** The default B0: the rough slope estimate, replaced by 2000 when not above 1e-6; raises
      LinAlgError when some temperature is 0 K and ZeroDivisionError when the mean temperature
      is 0. */
  method GuessB0(N: Numerics, tK: seq<real>, y: seq<real>, c0: real) returns (r: Result<real>)
    requires |tK| > 0
    ensures r.Failure? <==> 0.0 in tK || Mean(tK) == 0.0
    ensures r.Failure? ==> Some(r.error) == GuessFault(tK)
    ensures r.Success? ==> r.value == DefaultB0(N, tK, y, c0)
  {
    if 0.0 in tK {
      return Failure(LinAlgError);
    }
    var m := N.slope(Reciprocals(N, tK), y);
    var tMean := Mean(tK);
    if tMean == 0.0 {
      return Failure(ZeroDivision);
    }
    var ratio := Mean(Shift(tK, c0)) / tMean;
    var b0 := Abs(m) * (ratio * ratio);
    if b0 <= 0.000001 {
      b0 := 2000.0;
    }
    return Success(b0);
  }

  /** The starting point: `x0` when given; otherwise (mean y, B0, C0) with the default C0 and B0,
      where computing B0 raises as `GuessFault` says. */
  method InitialGuess(N: Numerics, tK: seq<real>, y: seq<real>, margin: real, given: Option<(real, real, real)>)
    returns (r: Result<(real, real, real)>)
    requires |tK| > 0 && |y| == |tK|
    ensures r.Failure? <==> given.None? && GuessFault(tK).Some?
    ensures r.Failure? ==> Some(r.error) == GuessFault(tK)
    ensures r.Success? && given.Some? ==> r.value == given.value
    ensures r.Success? && given.None? ==>
              && GuessFault(tK).None?
              && r.value == (Mean(y), DefaultB0(N, tK, y, DefaultC0(tK, margin)), DefaultC0(tK, margin))
  {
    if given.Some? {
      return Success(given.value);
    }
    var c0 := GuessC0(tK, margin);
    var a0 := Mean(y);
    var b0 := GuessB0(N, tK, y, c0);
    if b0.Failure? {
      return Failure(b0.error);
    }
    return Success((a0, b0.value, c0));
  }

  /** f_scale: the given one, else the default for the loss. */
  method ChooseFScale(N: Numerics, loss: string, fitInLogSpace: bool, pPa: seq<real>, given: Option<real>)
    returns (f: real)
    ensures f == if given.Some? then given.value else DefaultFScale(N, loss, fitInLogSpace, pPa)
  {
    if given.None? {
      if loss != "linear" {
        f := if fitInLogSpace then 0.02 else Max2(1.0, N.median(pPa) * 0.02);
      } else {
        f := 1.0;
      }
    } else {
      f := given.value;
    }
  }

  /** The report `fit_antoine` returns for the solver's answer `s` to the problem `p`. */
  predicate ReportedAs(N: Numerics, opts: FitOptions, p: Problem, s: Solution, report: FitReport)
    requires |p.tK| > 0
  {
    && report.a == s.a && report.b == s.b && report.c == s.c
    && report.base == Lower(opts.base)
    && report.pUnit == "Pa" && report.tUnitInternal == "K"
    && report.fitInLogSpace == opts.fitInLogSpace
    && report.success == s.success && report.message == s.message && report.cost == s.cost
    && report.tMinK == Min(p.tK) && report.tMaxK == Max(p.tK)
    && report.loss == p.loss && report.fScale == p.fScale
    && (!opts.validate ==> report.warnings == [])
    && (opts.validate ==>
          report.warnings == Warnings(ChecksOf(p.tK, Predicted(N, p.base, s.a, s.b, s.c, p.tK), s.b, s.c, opts.minMarginKelvin),
                                      Min(Shift(p.tK, s.c)), opts.minMarginKelvin))
  }

  /** `Antoine.fit_antoine`: answers `{}` for rejected input; raises what the default B0 guess
      raises (LinAlgError for a temperature of 0 K, ZeroDivisionError for a zero mean temperature)
      when no x0 is given, and the `ValueError` of `least_squares`
      when the solver refuses its arguments; otherwise poses the problem to the solver and reports
      its answer with the validation warnings. */
  method FitAntoine(N: Numerics, solve: Problem -> Solution, tData: seq<real>, pData: seq<real>, opts: FitOptions)
    returns (r: FitOutcome)
    ensures r.Rejected? <==> Rejects(tData, pData, opts)
    ensures r.Raised? <==>
              && !Rejects(tData, pData, opts)
              && (|| StartFault(tData, opts).Some?
                  || SolverFault(Lower(opts.loss), opts.maxNfev, BoundsOf(opts),
                                 StartingPoint(N, tData, pData, opts)).Some?)
    ensures r.Raised? && StartFault(tData, opts).Some? ==> Some(r.error) == StartFault(tData, opts)
    ensures r.Raised? && StartFault(tData, opts).None? ==>
              Some(r.error) == SolverFault(Lower(opts.loss), opts.maxNfev, BoundsOf(opts),
                                           StartingPoint(N, tData, pData, opts))
    ensures r.Fitted? ==>
              && !Rejects(tData, pData, opts)
              && StartFault(tData, opts).None?
              && PosedBy(N, tData, pData, opts, r.problem)
              && SolverFault(r.problem.loss, r.problem.maxNfev, r.problem.bounds, r.problem.x0).None?
              && ReportedAs(N, opts, r.problem, solve(r.problem), r.report)
  {
    var prepared := Prepare(N, tData, pData, opts);
    if prepared.None? {
      return Rejected;
    }
    var d := prepared.value;
    var guess := InitialGuess(N, d.tK, d.y, opts.minMarginKelvin, opts.x0);
    if guess.Failure? {
      return Raised(guess.error);
    }
    assert guess.value == StartingPoint(N, tData, pData, opts);

    var bounds := BoundsOf(opts);
    var loss := Lower(opts.loss);
    var fScale := ChooseFScale(N, loss, opts.fitInLogSpace, d.pPa, opts.fScale);

    var fault := SolverFault(loss, opts.maxNfev, bounds, guess.value);
    if fault.Some? {
      return Raised(fault.value);
    }
    var problem := Problem(d.tK, d.pPa, d.y, d.w, d.base, opts.fitInLogSpace, guess.value, bounds,
                           opts.maxNfev, loss, fScale);
    var s := solve(problem);
    var pHat := Predicted(N, d.base, s.a, s.b, s.c, d.tK);

    var warnings: seq<Warning> := [];
    if opts.validate {
      warnings := ValidationWarnings(d.tK, pHat, s.b, s.c, opts.minMarginKelvin);
    }
    var report := FitReport(s.a, s.b, s.c, Lower(opts.base), "Pa", "K", opts.fitInLogSpace, s.success,
                            s.message, s.cost, warnings, Min(d.tK), Max(d.tK), loss, fScale);
    return Fitted(report, problem);
  }

  // ---------------------------------------------------------------- _robust_weight

  /** `_robust_weight(loss, z)`: the IRLS-style weight of a standardised residual z under the
      lower-cased loss name; an unknown name weighs like the linear loss. */
  function RobustWeight(N: Numerics, loss: string, z: real): real
    requires SqrtLaw(N)
  {
    var a := Abs(z);
    var l := Lower(loss);
    if l == "linear" then 1.0
    else if l == "soft_l1" then
      SqrtOfAtLeastOne(N, 1.0 + z * z);
      1.0 / N.sqrt(1.0 + z * z)
    else if l == "huber" then (if a <= 1.0 then 1.0 else 1.0 / a)
    else if l == "cauchy" then 1.0 / (1.0 + z * z)
    else if l == "arctan" then 1.0 / (1.0 + z * z)
    else 1.0
  }

  lemma NonNegativeFactor(u: real, v: real)
    requires 0.0 < v && 0.0 <= u * v
    ensures 0.0 <= u
  {
  }

  lemma SqrtOfAtLeastOne(N: Numerics, x: real)
    requires SqrtLaw(N) && 1.0 <= x
    ensures 1.0 <= N.sqrt(x)
  {
    var r := N.sqrt(x);
    assert 0.0 <= r && r * r == x;
    assert (r - 1.0) * (r + 1.0) == x - 1.0;
    NonNegativeFactor(r - 1.0, r + 1.0);
  }

  lemma SqrtMonotone(N: Numerics, x: real, y: real)
    requires SqrtLaw(N) && 0.0 <= x <= y
    ensures N.sqrt(x) <= N.sqrt(y)
  {
    var rx, ry := N.sqrt(x), N.sqrt(y);
    assert 0.0 <= rx && rx * rx == x && 0.0 <= ry && ry * ry == y;
    assert (ry - rx) * (ry + rx) == y - x;
    if 0.0 < ry + rx {
      NonNegativeFactor(ry - rx, ry + rx);
    }
  }

  lemma ReciprocalAntitone(x: real, y: real)
    requires 0.0 < x <= y
    ensures 1.0 / y <= 1.0 / x
  {
    assert 1.0 / y == (1.0 / x) * (x / y);
  }

  lemma ProductNonNegative(u: real, v: real)
    requires 0.0 <= u && 0.0 <= v
    ensures 0.0 <= u * v
  {
  }

  lemma SquareMonotone(z1: real, z2: real)
    requires Abs(z1) <= Abs(z2)
    ensures z1 * z1 <= z2 * z2
  {
    var a, b := Abs(z1), Abs(z2);
    assert z1 * z1 == a * a && z2 * z2 == b * b;
    ProductNonNegative(b - a, b + a);
    assert (b - a) * (b + a) == b * b - a * a;
  }

  /** Every robust weight lies in (0, 1]: a residual is never weighted up, nor dropped. */
  lemma {:induction false} RobustWeightBounds(N: Numerics, loss: string, z: real)
    requires SqrtLaw(N)
    ensures 0.0 < RobustWeight(N, loss, z) <= 1.0
  {
    var l := Lower(loss);
    assert 0.0 <= z * z;
    if l == "soft_l1" {
      SqrtOfAtLeastOne(N, 1.0 + z * z);
      ReciprocalAntitone(1.0, N.sqrt(1.0 + z * z));
    } else if l == "huber" && 1.0 < Abs(z) {
      ReciprocalAntitone(1.0, Abs(z));
    } else if l == "cauchy" || l == "arctan" {
      ReciprocalAntitone(1.0, 1.0 + z * z);
    }
  }

  /** The weight never grows with the size of the residual: a larger |z| is weighted no more. */
  lemma {:induction false} RobustWeightMonotone(N: Numerics, loss: string, z1: real, z2: real)
    requires SqrtLaw(N) && Abs(z1) <= Abs(z2)
    ensures RobustWeight(N, loss, z2) <= RobustWeight(N, loss, z1)
  {
    var l := Lower(loss);
    SquareMonotone(z1, z2);
    assert 0.0 <= z1 * z1;
    if l == "soft_l1" {
      SqrtOfAtLeastOne(N, 1.0 + z1 * z1);
      SqrtMonotone(N, 1.0 + z1 * z1, 1.0 + z2 * z2);
      ReciprocalAntitone(N.sqrt(1.0 + z1 * z1), N.sqrt(1.0 + z2 * z2));
    } else if l == "huber" {
      if 1.0 < Abs(z1) {
        ReciprocalAntitone(Abs(z1), Abs(z2));
      } else if 1.0 < Abs(z2) {
        ReciprocalAntitone(1.0, Abs(z2));
      }
    } else if l == "cauchy" || l == "arctan" {
      ReciprocalAntitone(1.0 + z1 * z1, 1.0 + z2 * z2);
    }
  }

  /** The weight depends on the residual only through its magnitude. */
  lemma RobustWeightOfMagnitude(N: Numerics, loss: string, z1: real, z2: real)
    requires SqrtLaw(N) && Abs(z1) == Abs(z2)
    ensures RobustWeight(N, loss, z1) == RobustWeight(N, loss, z2)
  {
    RobustWeightMonotone(N, loss, z1, z2);
    RobustWeightMonotone(N, loss, z2, z1);
  }

  // ---------------------------------------------------------------- outlier_report

  /** The entries of a fit report dict `outlier_report` reads: A, B and C by subscript (a missing
      one raises KeyError), base, loss and f_scale through `.get` with defaults. */
  datatype ReportView = ReportView(
    a: Option<real>, b: Option<real>, c: Option<real>,
    base: Option<string>, loss: Option<string>, fScale: Option<real>)

  /** The dict `fit_antoine` returned: the report's entries, or `{}` for rejected input. */
  function ViewOf(outcome: FitOutcome): ReportView
    requires !outcome.Raised?
  {
    match outcome
    case Fitted(rep, _) =>
      ReportView(Some(rep.a), Some(rep.b), Some(rep.c), Some(rep.base), Some(rep.loss), Some(rep.fScale))
    case Rejected => ReportView(None, None, None, None, None, None)
  }

  /** `residual_domain`, lower-cased: "log" or "p". */
  datatype Domain = LogDomain | PressureDomain

  function DomainOf(name: string): Option<Domain> {
    if Lower(name) == "log" then Some(LogDomain)
    else if Lower(name) == "p" then Some(PressureDomain)
    else None
  }

  /** One row of the outlier report. */
  datatype OutlierEntry = OutlierEntry(
    index: nat, tK: real, pInputPa: real, pFitPa: real,
    residual: real, standardizedResidual: real, robustWeight: real)

  /** The settings `outlier_report` fits its points with. */
  datatype Curve = Curve(a: real, b: real, c: real, base: Base, loss: string, fScale: real)

  /** The curve read from a report that has A, B and C: a base other than "log10" counts as
      natural log, and the defaults are "log10", "linear" and 1.0. */
  function CurveOf(view: ReportView): Curve
    requires view.a.Some? && view.b.Some? && view.c.Some?
  {
    Curve(view.a.value, view.b.value, view.c.value,
          if Lower(view.base.GetOr("log10")) == "log10" then Log10 else Ln,
          Lower(view.loss.GetOr("linear")), view.fScale.GetOr(1.0))
  }

  /** The report row for point `i`: the residual in the chosen domain, standardised by f_scale
      (0 when f_scale is not positive), and its robust weight. */
  function PointAt(N: Numerics, cv: Curve, domain: Domain, t: real, p: real, i: nat): (e: OutlierEntry)
    requires SqrtLaw(N)
    ensures e.index == i && e.tK == t && e.pInputPa == p
    ensures e.pFitPa == Power(N, cv.base, AntoineLog(N, cv.a, cv.b, cv.c, t))
    ensures domain == LogDomain ==> e.residual == AntoineLog(N, cv.a, cv.b, cv.c, t) - Log(N, cv.base, p)
    ensures domain != LogDomain ==> e.residual == e.pFitPa - p
    ensures cv.fScale <= 0.0 ==> e.standardizedResidual == 0.0
    ensures 0.0 < cv.fScale ==> e.standardizedResidual * cv.fScale == e.residual
    ensures e.robustWeight == RobustWeight(N, cv.loss, e.standardizedResidual)
  {
    var yHat := AntoineLog(N, cv.a, cv.b, cv.c, t);
    var pHat := Power(N, cv.base, yHat);
    var r := if domain == LogDomain then yHat - Log(N, cv.base, p) else pHat - p;
    var z := if 0.0 < cv.fScale then r / cv.fScale else 0.0;
    OutlierEntry(i, t, p, pHat, r, z, RobustWeight(N, cv.loss, z))
  }

  /** The row for every data point, in data order. */
  function Points(N: Numerics, cv: Curve, domain: Domain, tK: seq<real>, pPa: seq<real>): (pts: seq<OutlierEntry>)
    requires SqrtLaw(N) && |tK| == |pPa|
    ensures |pts| == |tK|
    ensures forall i :: 0 <= i < |pts| ==> pts[i] == PointAt(N, cv, domain, tK[i], pPa[i], i)
  {
    seq(|tK|, i requires 0 <= i < |tK| => PointAt(N, cv, domain, tK[i], pPa[i], i))
  }

  function WeightColumn(pts: seq<OutlierEntry>): (r: seq<real>)
    ensures |r| == |pts| && forall i :: 0 <= i < |pts| ==> r[i] == pts[i].robustWeight
  {
    seq(|pts|, i requires 0 <= i < |pts| => pts[i].robustWeight)
  }

  function MagnitudeColumn(pts: seq<OutlierEntry>): (r: seq<real>)
    ensures |r| == |pts| && forall i :: 0 <= i < |pts| ==> r[i] == Abs(pts[i].standardizedResidual)
  {
    seq(|pts|, i requires 0 <= i < |pts| => Abs(pts[i].standardizedResidual))
  }

  /** The ranking: an argsort of the weights (plus 1e-12), re-sorted by |z| along that order and
      reversed. Every point appears once, by non-increasing |z|. */
  function Ranking(weights: seq<real>, magnitudes: seq<real>): (order: seq<nat>)
    requires |weights| == |magnitudes|
    ensures IsPermutation(order, |magnitudes|)
    ensures forall a, b :: 0 <= a < b < |order| ==> magnitudes[order[b]] <= magnitudes[order[a]]
  {
    var first := Argsort(Shift(weights, 0.000000000001));
    var second := Argsort(Gather(magnitudes, first));
    ResortedPermutation(magnitudes, first, second);
    ReverseDescending(magnitudes, Gather(first, second));
    Reverse(Gather(first, second))
  }

  /** The number of rows `order[:min(top_n, n)]` keeps, by Python's slice rules: a negative
      `top_n` drops that many rows from the end. */
  function TopCount(n: nat, topN: int): (k: nat)
    ensures k <= n
    ensures 0 <= topN ==> k == (if topN < n then topN else n)
    ensures topN < 0 ==> k == (if 0 < n + topN then n + topN else 0)
  {
    var stop := if topN < n then topN else n;
    if 0 <= stop then stop else if 0 < n + stop then n + stop else 0
  }

  /** `out` lists distinct points of `pts`, in ranking order, by non-increasing |z| and so by
      non-decreasing robust weight. */
  predicate RankedRows(pts: seq<OutlierEntry>, out: seq<OutlierEntry>) {
    && |out| <= |pts|
    && (forall k :: 0 <= k < |out| ==> out[k].index < |pts| && out[k] == pts[out[k].index])
    && (forall k :: 0 <= k < |out| ==> out[k].index == Ranking(WeightColumn(pts), MagnitudeColumn(pts))[k])
    && (forall a, b :: 0 <= a < b < |out| ==> out[a].index != out[b].index)
    && (forall a, b :: 0 <= a < b < |out| ==>
          Abs(out[b].standardizedResidual) <= Abs(out[a].standardizedResidual))
    && (forall a, b :: 0 <= a < b < |out| ==> out[a].robustWeight <= out[b].robustWeight)
  }

  /** The loop of `outlier_report`: one row per ranked index, for the first `count` of them. */
  method TakeRows(pts: seq<OutlierEntry>, order: seq<nat>, count: nat) returns (out: seq<OutlierEntry>)
    requires InRange(order, |pts|) && count <= |order|
    ensures |out| == count
    ensures forall j :: 0 <= j < count ==> out[j] == pts[order[j]]
  {
    out := [];
    var k := 0;
    while k < count
      invariant 0 <= k <= count
      invariant |out| == k
      invariant forall j :: 0 <= j < k ==> out[j] == pts[order[j]]
    {
      out := out + [pts[order[k]]];
      k := k + 1;
    }
  }

  /** A prefix of the ranking of the rows for a curve is ranked: each row is the row of its own
      index, and since weights fall as |z| grows, the weights do not decrease down the list. */
  lemma {:induction false} RankingPrefixIsRanked(N: Numerics, cv: Curve, domain: Domain, tK: seq<real>, pPa: seq<real>,
                                                 out: seq<OutlierEntry>)
    requires SqrtLaw(N) && |tK| == |pPa|
    requires var pts := Points(N, cv, domain, tK, pPa);
      && |out| <= |pts|
      && forall j :: 0 <= j < |out| ==> out[j] == pts[Ranking(WeightColumn(pts), MagnitudeColumn(pts))[j]]
    ensures RankedRows(Points(N, cv, domain, tK, pPa), out)
  {
    var pts := Points(N, cv, domain, tK, pPa);
    var order := Ranking(WeightColumn(pts), MagnitudeColumn(pts));
    forall k | 0 <= k < |out| ensures out[k].index == order[k] && out[k] == pts[out[k].index] {
      assert pts[order[k]].index == order[k];
    }
    forall a, b | 0 <= a < b < |out|
      ensures out[a].index != out[b].index
      ensures Abs(out[b].standardizedResidual) <= Abs(out[a].standardizedResidual)
      ensures out[a].robustWeight <= out[b].robustWeight
    {
      assert MagnitudeColumn(pts)[order[b]] <= MagnitudeColumn(pts)[order[a]];
      RobustWeightMonotone(N, cv.loss, out[b].standardizedResidual, out[a].standardizedResidual);
    }
  }

  /** `Antoine.outlier_report`: raises KeyError for a report without A, B or C (such as the `{}` a
      rejected fit returns); answers [] for an unknown residual domain; otherwise lists the
      first `top_n` points of the ranking. */
  method OutlierReport(N: Numerics, tData: seq<real>, pData: seq<real>, view: ReportView,
                       tUnit: string, pUnit: string, topN: int, residualDomain: string)
    returns (r: Result<seq<OutlierEntry>>)
    requires SqrtLaw(N)
    requires |tData| == |pData|
    ensures r.Failure? <==> view.a.None? || view.b.None? || view.c.None?
    ensures r.Failure? ==> r.error == KeyMissing(if view.a.None? then "A" else if view.b.None? then "B" else "C")
    ensures r.Success? && DomainOf(residualDomain).None? ==> r.value == []
    ensures r.Success? && DomainOf(residualDomain).Some? ==>
              var pts := Points(N, CurveOf(view), DomainOf(residualDomain).value,
                                Shift(tData, LenientKelvinOffset(tUnit)), Scale(pData, LenientPressureFactor(pUnit)));
              |r.value| == TopCount(|pts|, topN) && RankedRows(pts, r.value)
  {
    var domain := DomainOf(residualDomain);
    var tK := Shift(tData, LenientKelvinOffset(tUnit));
    var pPa := Scale(pData, LenientPressureFactor(pUnit));
    if view.a.None? {
      return Failure(KeyMissing("A"));
    } else if view.b.None? {
      return Failure(KeyMissing("B"));
    } else if view.c.None? {
      return Failure(KeyMissing("C"));
    }
    if domain.None? {
      return Success([]);
    }
    var cv := CurveOf(view);
    var pts := Points(N, cv, domain.value, tK, pPa);
    var order := Ranking(WeightColumn(pts), MagnitudeColumn(pts));
    var out := TakeRows(pts, order, TopCount(|order|, topN));
    RankingPrefixIsRanked(N, cv, domain.value, tK, pPa, out);
    return Success(out);
  }

  // ---------------------------------------------------------------- calc

  /** A computed point: the temperature in kelvin and the vapour pressure in pascal. */
  datatype VaporPressure = VaporPressure(temperature: real, vaporPressure: real)

  /** `Antoine.calc`: None for an unknown temperature unit or base, and for T + C == 0 (the
      ZeroDivisionError it catches); otherwise the point on the curve at T. */
  function Calc(N: Numerics, tValue: real, tUnit: string, a: real, b: real, c: real, base: string)
    : (r: Option<VaporPressure>)
    ensures r.Some? <==>
              KelvinOffset(tUnit).Some? && BaseOf(base).Some? && tValue + KelvinOffset(tUnit).value + c != 0.0
    ensures r.Some? ==> r.value.temperature == tValue + KelvinOffset(tUnit).value
    ensures r.Some? && PowerLaws(N) ==>
              && 0.0 < r.value.vaporPressure
              && Log(N, BaseOf(base).value, r.value.vaporPressure) == a - b / (r.value.temperature + c)
  {
    var offset := KelvinOffset(tUnit);
    if offset.None? then None
    else
      var tK := tValue + offset.value;
      var bs := BaseOf(base);
      if bs.None? || tK + c == 0.0 then None
      else Some(VaporPressure(tK, Power(N, bs.value, a - b / (tK + c))))
  }

  /** A Celsius temperature gives the same point as the kelvin temperature 273.15 above it. */
  lemma CalcCelsiusIsShiftedKelvin(N: Numerics, t: real, a: real, b: real, c: real, base: string)
    ensures Calc(N, t, "C", a, b, c, base) == Calc(N, t + 273.15, "K", a, b, c, base)
  {
    assert Lower("C") == "c" && Lower("K") == "k";
  }

  /** `calc` with the fitted coefficients reproduces, at each data temperature, the pressure the
      fit's validation read off the curve. */
  lemma CalcMatchesFittedCurve(N: Numerics, p: Problem, s: Solution, i: nat)
    requires i < |p.tK| && p.tK[i] + s.c != 0.0
    ensures Calc(N, p.tK[i], "K", s.a, s.b, s.c, BaseName(p.base))
            == Some(VaporPressure(p.tK[i], Predicted(N, p.base, s.a, s.b, s.c, p.tK)[i]))
  {
    assert Lower("K") == "k";
    BaseNameRoundTrip(p.base);
  }
}
