/** Withholding on the wage ("cache") component of one working day:
    the 5% commission, the bracket-selected social-security charge and the
    income tax at the caller's rate. */
module DayTax {

  /** The two copies of the engine. They differ in the charge of the fourth
      social-security bracket only. */
  datatype Edition = Main2 | Dev

  /** Charge of the bracket (729.421578947369, 1250.26368421053]. */
  function FourthBracketCharge(e: Edition): real
  {
    match e
    case Main2 => 176.49
    case Dev => 179.49
  }

  /** The only non-constant bracket: a formula on the cost (gross minus commission). */
  function FormulaCharge(coste: real): real
  {
    var part1 := coste * 0.25009;
    var part2 := (coste - part1) * 0.0655;
    part1 + part2 + 2.5
  }

  /** The ordered if/elif chain, keyed on the gross amount. */
  function SocialSecurity(e: Edition, bruto: real): real
  {
    var coste := bruto - bruto * 0.05;
    if bruto <= 75.0 then 21.0
    else if bruto <= 477.25 then FormulaCharge(coste)
    else if bruto <= 729.421578947369 then 138.86
    else if bruto <= 1250.26368421053 then FourthBracketCharge(e)
    else if bruto <= 2023.02157894737 then 221.41
    else if bruto <= 2287.30578947368 then 288.52
    else if bruto <= 2732.66368421053 then 294.67
    else if bruto <= 3158.85315789474 then 300.77
    else 310.27
  }

  // ---------------------------------------------------------------------
  // An independent reading of the schedule: a table of (upper bound, charge)
  // rows searched for the first row whose bound is not exceeded.
  // ---------------------------------------------------------------------

  datatype Charge = Fixed(amount: real) | Formula
  datatype Bracket = Bracket(upTo: real, charge: Charge)

  /** Charge when the gross exceeds every bound of the table. */
  const TOP_CHARGE: real := 310.27

  function Schedule(e: Edition): seq<Bracket>
  {
    [ Bracket(75.0, Fixed(21.0)),
      Bracket(477.25, Formula),
      Bracket(729.421578947369, Fixed(138.86)),
      Bracket(1250.26368421053, Fixed(FourthBracketCharge(e))),
      Bracket(2023.02157894737, Fixed(221.41)),
      Bracket(2287.30578947368, Fixed(288.52)),
      Bracket(2732.66368421053, Fixed(294.67)),
      Bracket(3158.85315789474, Fixed(300.77)) ]
  }

  /** First row (from index k on) whose bound the gross does not exceed. */
  function SelectFrom(table: seq<Bracket>, k: nat, bruto: real): Charge
    requires k <= |table|
    decreases |table| - k
  {
    if k == |table| then Fixed(TOP_CHARGE)
    else if bruto <= table[k].upTo then table[k].charge
    else SelectFrom(table, k + 1, bruto)
  }

  function ChargeOf(c: Charge, coste: real): real
  {
    match c
    case Fixed(a) => a
    case Formula => FormulaCharge(coste)
  }

  /** The search returns the charge of the first row whose bound is not exceeded. */
  lemma {:induction false} SelectIsFirstMatch(table: seq<Bracket>, k: nat, j: nat, bruto: real)
    requires k <= j < |table|
    requires bruto <= table[j].upTo
    requires forall i :: k <= i < j ==> table[i].upTo < bruto
    ensures SelectFrom(table, k, bruto) == table[j].charge
    decreases j - k
  {
    if k < j {
      SelectIsFirstMatch(table, k + 1, j, bruto);
    }
  }

  /** When every bound is exceeded the search gives the top charge. */
  lemma {:induction false} SelectAboveAll(table: seq<Bracket>, k: nat, bruto: real)
    requires k <= |table|
    requires forall i :: k <= i < |table| ==> table[i].upTo < bruto
    ensures SelectFrom(table, k, bruto) == Fixed(TOP_CHARGE)
    decreases |table| - k
  {
    if k < |table| {
      SelectAboveAll(table, k + 1, bruto);
    }
  }

  /** The bounds of the schedule are strictly ascending. */
  lemma ScheduleAscending(e: Edition)
    ensures forall i, j :: 0 <= i < j < |Schedule(e)| ==> Schedule(e)[i].upTo < Schedule(e)[j].upTo
  {
  }

  /** The if/elif chain and the first-match table search agree on every gross. */
  lemma ChainIsFirstMatch(e: Edition, bruto: real)
    ensures SocialSecurity(e, bruto) == ChargeOf(SelectFrom(Schedule(e), 0, bruto), bruto - bruto * 0.05)
  {
    var t := Schedule(e);
    var j := if bruto <= 75.0 then 0
      else if bruto <= 477.25 then 1
      else if bruto <= 729.421578947369 then 2
      else if bruto <= 1250.26368421053 then 3
      else if bruto <= 2023.02157894737 then 4
      else if bruto <= 2287.30578947368 then 5
      else if bruto <= 2732.66368421053 then 6
      else if bruto <= 3158.85315789474 then 7
      else 8;
    if j < 8 {
      SelectIsFirstMatch(t, 0, j, bruto);
    } else {
      SelectAboveAll(t, 0, bruto);
    }
  }

  /** Each bracket of the chain, in the order it is tested. */
  lemma SocialSecurityBrackets(e: Edition, bruto: real)
    ensures bruto <= 75.0 ==> SocialSecurity(e, bruto) == 21.0
    ensures 75.0 < bruto <= 477.25 ==>
      SocialSecurity(e, bruto) == 0.95 * bruto * 0.25009 + (0.95 * bruto - 0.95 * bruto * 0.25009) * 0.0655 + 2.5
    ensures 477.25 < bruto <= 729.421578947369 ==> SocialSecurity(e, bruto) == 138.86
    ensures 729.421578947369 < bruto <= 1250.26368421053 ==> SocialSecurity(e, bruto) == FourthBracketCharge(e)
    ensures 1250.26368421053 < bruto <= 2023.02157894737 ==> SocialSecurity(e, bruto) == 221.41
    ensures 2023.02157894737 < bruto <= 2287.30578947368 ==> SocialSecurity(e, bruto) == 288.52
    ensures 2287.30578947368 < bruto <= 2732.66368421053 ==> SocialSecurity(e, bruto) == 294.67
    ensures 2732.66368421053 < bruto <= 3158.85315789474 ==> SocialSecurity(e, bruto) == 300.77
    ensures 3158.85315789474 < bruto ==> SocialSecurity(e, bruto) == 310.27
  {
  }

  /** The charge never decreases as the gross grows: the chain only jumps
      upwards at its bounds (21.0 to about 23.82 just above 75, about 138.16
      to 138.86 just above 477.25). */
  lemma SocialSecurityMonotone(e: Edition, a: real, b: real)
    requires a <= b
    ensures 21.0 <= SocialSecurity(e, a) <= SocialSecurity(e, b) <= 310.27
  {
  }

  /** Result of the per-day calculation. */
  datatype DayResult = DayResult(
    bruto: real, comision: real, coste: real,
    segSocial: real, baseLiq: real, irpf: real, aLiquidar: real)

  /** One day's withholding on a wage of `bruto` at income-tax rate `rate` (percent). */
  function CalcDay(e: Edition, bruto: real, rate: real): (r: DayResult)
    ensures r.bruto == bruto && r.comision == 0.05 * bruto && r.coste == 0.95 * bruto
    ensures r.segSocial == SocialSecurity(e, bruto)
    ensures r.baseLiq == 0.95 * bruto - r.segSocial
    ensures r.irpf == r.baseLiq * rate / 100.0
    ensures r.aLiquidar == bruto - r.comision - r.segSocial - r.irpf
  {
    var comision := bruto * 0.05;
    var coste := bruto - comision;
    var segSocial := SocialSecurity(e, bruto);
    var baseLiq := coste - segSocial;
    var irpf := baseLiq * (rate / 100.0);
    DayResult(bruto, comision, coste, segSocial, baseLiq, irpf, baseLiq - irpf)
  }

  /** The net in closed form:
      gross, less 5%, less social security, less the rate on `0.95 · bruto - seg_social`. */
  lemma NetClosedForm(e: Edition, bruto: real, rate: real)
    ensures CalcDay(e, bruto, rate).aLiquidar ==
      bruto - 0.05 * bruto - SocialSecurity(e, bruto) - (0.95 * bruto - SocialSecurity(e, bruto)) * rate / 100.0
  {
  }

  /** On a wage at or above the legal daily floor of 75 the taxable base is
      positive and, for a rate of at most 100%, the tax and the net are
      non-negative. Below the floor the base can be negative (21.0 is charged
      on any gross up to 75); no clamping is done. */
  lemma WageNetNonNegative(e: Edition, bruto: real, rate: real)
    requires bruto >= 75.0
    requires 0.0 <= rate <= 100.0
    ensures CalcDay(e, bruto, rate).baseLiq > 0.0
    ensures 0.0 <= CalcDay(e, bruto, rate).irpf <= CalcDay(e, bruto, rate).baseLiq
    ensures CalcDay(e, bruto, rate).aLiquidar >= 0.0
  {
    var r := CalcDay(e, bruto, rate);
    SocialSecurityBrackets(e, bruto);
    assert r.baseLiq > 0.0;
    ProductBounds(r.baseLiq, rate);
  }

  lemma ProductBounds(x: real, rate: real)
    requires x >= 0.0 && 0.0 <= rate <= 100.0
    ensures 0.0 <= x * rate / 100.0 <= x
  {
    assert x * rate <= x * 100.0;
  }
}
