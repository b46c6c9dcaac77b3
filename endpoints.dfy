/** The two entry points of the engine: gross to net (clamped to the legal
    floor) and net to gross (a bisection on the trial gross), and the
    structure of the response both return. */
module Endpoints {

  import opened DayTax
  import opened Pool
  import opened Cascade
  import opened Scenario

  const ADJUSTED_WARNING: string := "El neto era demasiado bajo y se ha ajustado al mínimo legal de 75€/día"

  /** The response, without the rounding to cents applied for display. */
  datatype Response = Response(
    warnings: seq<string>, grossNeeded: real, netTotal: real,
    totals: Totals, dayDetail: seq<DayReport>, expenses: ExpenseReport,
    taimanApplies: bool, taiman: Option<TaimanResult>)

  /** Carries the scenario's figures over unchanged; one warning exactly
      when the gross was raised to the floor. */
  function FormatResponse(s: ScenarioResult, adjusted: bool): (r: Response)
    ensures |r.warnings| > 0 <==> adjusted
    ensures r.grossNeeded == s.grossEvaluated && r.netTotal == s.net && r.totals == s.totals
    ensures r.dayDetail == s.dayResults && r.expenses == s.expenses && r.taiman == s.taiman
    ensures r.taimanApplies <==> s.taiman.Some?
  {
    Response(if adjusted then [ADJUSTED_WARNING] else [],
             s.grossEvaluated, s.net, s.totals, s.dayResults, s.expenses,
             s.taiman != None, s.taiman)
  }

  /** Gross to net: the principal is raised to the floor `75 · max(1, dias)`
      when below it, and the response says so. */
  method GrossToNet(e: Edition, inp: Inputs, principal: real) returns (r: Response)
    ensures r.grossNeeded == Max(principal, Floor(inp)) && r.grossNeeded >= Floor(inp)
    ensures principal >= Floor(inp) ==> r.grossNeeded == principal
    ensures |r.warnings| > 0 <==> principal < Floor(inp)
    ensures r == FormatResponse(Evaluate(e, r.grossNeeded, inp), principal < Floor(inp))
    ensures inp.dietRate >= 0.0 ==> r.totals.bruto == r.grossNeeded
  {
    var minBrutoRequerido := DayCount(inp) as real * WAGE_FLOOR;
    var brutoFinal := Max(principal, minBrutoRequerido);
    var sim := SimulateScenario(e, brutoFinal, inp);
    r := FormatResponse(sim, principal < minBrutoRequerido);
    if inp.dietRate >= 0.0 {
      ScenarioGross(e, brutoFinal, inp);
    }
  }

  const MAX_ITERATIONS: nat := 100
  const TOLERANCE: real := 0.005

  /** The initial upper end of the search interval. */
  function SearchCeiling(target: real, inp: Inputs): real
  {
    target * 3.0 + Floor(inp) + 1000.0
  }

  function Abs(x: real): real
  {
    if x < 0.0 then -x else x
  }

  function Pow2(k: nat): (p: real)
    ensures p >= 1.0
  {
    if k == 0 then 1.0 else 2.0 * Pow2(k - 1)
  }

  /** The width of a search interval after `k` halvings, scaled back by `2^k`. */
  function ScaledWidth(low: real, high: real, k: nat): real
  {
    (high - low) * Pow2(k)
  }

  /** Either half of an interval, scaled by one more power of two, has the
      scaled width of the whole. */
  lemma Halve(low: real, high: real, k: nat)
    ensures ScaledWidth((low + high) / 2.0, high, k + 1) == ScaledWidth(low, high, k)
    ensures ScaledWidth(low, (low + high) / 2.0, k + 1) == ScaledWidth(low, high, k)
  {
    var w := high - low;
    assert high - (low + high) / 2.0 == w / 2.0;
    assert (low + high) / 2.0 - low == w / 2.0;
    assert (w / 2.0) * (2.0 * Pow2(k)) == w * Pow2(k);
  }

  /** The search loop of net to gross, on the interval `[low0, high0]`;
      `start` is the scenario held before the first evaluation. */
  method Bisect(e: Edition, inp: Inputs, target: real, low0: real, high0: real, start: ScenarioResult)
    returns (res: ScenarioResult, evaluations: nat, ghost lo: real, ghost hi: real)
    ensures 1 <= evaluations <= MAX_ITERATIONS
    ensures res == Evaluate(e, res.grossEvaluated, inp)
    ensures evaluations < MAX_ITERATIONS ==> Abs(res.net - target) < TOLERANCE
    ensures low0 <= high0 ==> low0 <= lo <= res.grossEvaluated <= hi <= high0
    ensures Abs(res.net - target) >= TOLERANCE ==>
      (res.net < target ==> res.grossEvaluated == lo) && (res.net > target ==> res.grossEvaluated == hi)
    ensures Abs(res.net - target) >= TOLERANCE ==>
      evaluations == MAX_ITERATIONS && ScaledWidth(lo, hi, MAX_ITERATIONS) == high0 - low0
  {
    var low := low0;
    var high := high0;
    res := start;
    evaluations := 0;
    var hit := false;
    for i := 0 to MAX_ITERATIONS
      invariant evaluations == i && !hit
      invariant low0 <= high0 ==> low0 <= low <= high <= high0
      invariant ScaledWidth(low, high, i) == high0 - low0
      invariant i > 0 ==> res == Evaluate(e, res.grossEvaluated, inp)
      invariant i > 0 ==> (res.net < target ==> res.grossEvaluated == low) && (res.net >= target ==> res.grossEvaluated == high)
      invariant i > 0 ==> Abs(res.net - target) >= TOLERANCE
    {
      var mid := (low + high) / 2.0;
      var sim := SimulateScenario(e, mid, inp);
      evaluations := evaluations + 1;
      if Abs(sim.net - target) < TOLERANCE {
        res := sim;
        hit := true;
        lo, hi := low, high;
        break;
      }
      Halve(low, high, i);
      if sim.net < target {
        low := mid;
      } else {
        high := mid;
      }
      res := sim;
    }
    if !hit {
      lo, hi := low, high;
    }
  }

  /** Net to gross. When the target is already reached at the floor the floor
      scenario is returned, flagged, with no search. Otherwise the trial
      gross is bisected on `[floor, 3 · target + floor + 1000]`, at most 100
      times, stopping early once the net is within half a cent of the
      target; the last scenario evaluated is returned.
      `lo` and `hi` are the final search interval. */
  method NetToGross(e: Edition, inp: Inputs, target: real)
    returns (r: Response, evaluations: nat, ghost lo: real, ghost hi: real)
    ensures evaluations <= MAX_ITERATIONS
    ensures target <= Evaluate(e, Floor(inp), inp).net ==>
      evaluations == 0 && r == FormatResponse(Evaluate(e, Floor(inp), inp), true)
    ensures target > Evaluate(e, Floor(inp), inp).net ==>
      evaluations >= 1 && r.warnings == [] && r == FormatResponse(Evaluate(e, r.grossNeeded, inp), false)
    ensures target > Evaluate(e, Floor(inp), inp).net && evaluations < MAX_ITERATIONS ==>
      Abs(r.netTotal - target) < TOLERANCE
    ensures target > Evaluate(e, Floor(inp), inp).net && Floor(inp) <= SearchCeiling(target, inp) ==>
      Floor(inp) <= lo <= r.grossNeeded <= hi <= SearchCeiling(target, inp)
    ensures target > Evaluate(e, Floor(inp), inp).net && Abs(r.netTotal - target) >= TOLERANCE ==>
      (r.netTotal < target ==> r.grossNeeded == lo) && (r.netTotal > target ==> r.grossNeeded == hi)
    ensures target > Evaluate(e, Floor(inp), inp).net && Abs(r.netTotal - target) >= TOLERANCE ==>
      evaluations == MAX_ITERATIONS &&
      ScaledWidth(lo, hi, MAX_ITERATIONS) == SearchCeiling(target, inp) - Floor(inp)
  {
    var minBrutoRequerido := DayCount(inp) as real * WAGE_FLOOR;
    assert minBrutoRequerido == Floor(inp);
    var simMinima := SimulateScenario(e, minBrutoRequerido, inp);
    var objetivoNeto := target;
    lo, hi := minBrutoRequerido, minBrutoRequerido;
    if objetivoNeto <= simMinima.net {
      r := FormatResponse(simMinima, true);
      evaluations := 0;
      return;
    }

    var res;
    res, evaluations, lo, hi := Bisect(e, inp, objetivoNeto, minBrutoRequerido, objetivoNeto * 3.0 + minBrutoRequerido + 1000.0, simMinima);
    r := FormatResponse(res, false);
  }
}
