/** One evaluation of the engine at a trial gross: the cascade, the per-day
    withholding on every day record, the running totals, the expense line
    and the secondary vendor ("Taiman") settlement on the allocated rental. */
module Scenario {

  import opened DayTax
  import opened Pool
  import opened Cascade

  datatype Option<T> = None | Some(value: T)

  /** The running totals, one field per category of `totals_zenit`. */
  datatype Totals = Totals(
    bruto: real, comision: real, coste: real,
    segSocial: real, irpf: real, aLiquidar: real)

  const NO_TOTALS: Totals := Totals(0.0, 0.0, 0.0, 0.0, 0.0, 0.0)

  /** A line of a day's report. The wage line's `baseLiquidable` holds the
      cost (gross minus commission), not the taxable base. The rental line
      has no net: it is paid through the vendor settlement. */
  datatype Concept =
    | WageLine(bruto: real, comision: real, baseLiquidable: real, segSocial: real, irpf: real, aLiquidar: real)
    | MileageLine(bruto: real, comision: real, baseLiquidable: real, aLiquidar: real)
    | DietLine(bruto: real, comision: real, baseLiquidable: real, aLiquidar: real)
    | RentalLine(bruto: real, comision: real, baseLiquidable: real)

  datatype DayReport = DayReport(dia: int, conceptos: seq<Concept>)

  /** The global expense line; `NoExpenses` is the zero record reported
      when nothing was granted. */
  datatype ExpenseReport =
    | NoExpenses
    | Expenses(bruto: real, comision: real, baseLiquidable: real, aLiquidar: real)

  datatype TaimanResult = TaimanResult(
    material: real, importe: real, comision: real, baseLiq: real, irpf7: real, neto: real)

  datatype ScenarioResult = ScenarioResult(
    grossEvaluated: real, net: real, dayResults: seq<DayReport>,
    expenses: ExpenseReport, taiman: Option<TaimanResult>, totals: Totals)

  // ---------------------------------------------------------------------
  // The totals, as a fold over the day records.
  // ---------------------------------------------------------------------

  /** A reimbursed amount (mileage, per-diem, expenses) is charged the 5%
      commission only, and its remainder is paid out. */
  function AddReimbursed(t: Totals, x: real): Totals
  {
    var c := x * 0.05;
    var bl := x - c;
    t.(bruto := t.bruto + x, comision := t.comision + c, coste := t.coste + bl, aLiquidar := t.aLiquidar + bl)
  }

  /** A rental amount is charged the commission but adds nothing to the net. */
  function AddRental(t: Totals, x: real): Totals
  {
    var c := x * 0.05;
    var bl := x - c;
    t.(bruto := t.bruto + x, comision := t.comision + c, coste := t.coste + bl)
  }

  function AddWage(t: Totals, w: DayResult): Totals
  {
    Totals(t.bruto + w.bruto, t.comision + w.comision, t.coste + w.coste,
           t.segSocial + w.segSocial, t.irpf + w.irpf, t.aLiquidar + w.aLiquidar)
  }

  /** One day's contribution: the wage always, each extra only when positive. */
  function AddDay(e: Edition, t: Totals, d: Day, rate: real): Totals
  {
    var t1 := AddWage(t, CalcDay(e, d.cache, rate));
    var t2 := if d.km > 0.0 then AddReimbursed(t1, d.km) else t1;
    var t3 := if d.dieta > 0.0 then AddReimbursed(t2, d.dieta) else t2;
    if d.alquiler > 0.0 then AddRental(t3, d.alquiler) else t3
  }

  function TotalsOver(e: Edition, ds: seq<Day>, rate: real): Totals
    decreases |ds|
  {
    if |ds| == 0 then NO_TOTALS
    else AddDay(e, TotalsOver(e, ds[..|ds| - 1], rate), ds[|ds| - 1], rate)
  }

  function AddExpense(t: Totals, granted: real): Totals
  {
    if granted > 0.0 then AddReimbursed(t, granted) else t
  }

  // ---------------------------------------------------------------------
  // The reports.
  // ---------------------------------------------------------------------

  /** The lines of one day's report, in the order the engine appends them. */
  function DayConcepts(e: Edition, d: Day, rate: real): seq<Concept>
  {
    var w := CalcDay(e, d.cache, rate);
    [WageLine(w.bruto, w.comision, w.coste, w.segSocial, w.irpf, w.aLiquidar)]
    + (if d.km > 0.0 then [MileageLine(d.km, d.km * 0.05, d.km - d.km * 0.05, d.km - d.km * 0.05)] else [])
    + (if d.dieta > 0.0 then [DietLine(d.dieta, d.dieta * 0.05, d.dieta - d.dieta * 0.05, d.dieta - d.dieta * 0.05)] else [])
    + (if d.alquiler > 0.0 then [RentalLine(d.alquiler, d.alquiler * 0.05, d.alquiler - d.alquiler * 0.05)] else [])
  }

  /** A day's report: the wage line first, holding the cost as its
      `baseLiquidable`; then one line per positive extra, each charged 5%
      commission and, except for rental, paid out at 95%; the rental line,
      when there is one, comes last. */
  lemma DayConceptsShape(e: Edition, d: Day, rate: real)
    ensures |DayConcepts(e, d, rate)| >= 1 && DayConcepts(e, d, rate)[0].WageLine?
    ensures DayConcepts(e, d, rate)[0].bruto == d.cache
    ensures DayConcepts(e, d, rate)[0].baseLiquidable == d.cache - DayConcepts(e, d, rate)[0].comision
    ensures DayConcepts(e, d, rate)[0].aLiquidar == CalcDay(e, d.cache, rate).aLiquidar
    ensures DayConcepts(e, d, rate)[0].comision == 0.05 * d.cache && DayConcepts(e, d, rate)[0].baseLiquidable == 0.95 * d.cache
    ensures DayConcepts(e, d, rate)[0].segSocial == SocialSecurity(e, d.cache) &&
            DayConcepts(e, d, rate)[0].irpf == CalcDay(e, d.cache, rate).irpf
    ensures |DayConcepts(e, d, rate)| ==
      1 + (if d.km > 0.0 then 1 else 0) + (if d.dieta > 0.0 then 1 else 0) + (if d.alquiler > 0.0 then 1 else 0)
    ensures forall i :: 1 <= i < |DayConcepts(e, d, rate)| ==>
      (!DayConcepts(e, d, rate)[i].WageLine? && DayConcepts(e, d, rate)[i].bruto > 0.0 &&
       DayConcepts(e, d, rate)[i].comision == 0.05 * DayConcepts(e, d, rate)[i].bruto &&
       DayConcepts(e, d, rate)[i].baseLiquidable == 0.95 * DayConcepts(e, d, rate)[i].bruto)
    ensures forall i :: 1 <= i < |DayConcepts(e, d, rate)| && !DayConcepts(e, d, rate)[i].RentalLine? ==>
      DayConcepts(e, d, rate)[i].aLiquidar == 0.95 * DayConcepts(e, d, rate)[i].bruto
    ensures DayConcepts(e, d, rate)[|DayConcepts(e, d, rate)| - 1].RentalLine? <==> d.alquiler > 0.0
    ensures forall i :: 0 <= i < |DayConcepts(e, d, rate)| - 1 ==> !DayConcepts(e, d, rate)[i].RentalLine?
    ensures d.km > 0.0 ==> DayConcepts(e, d, rate)[1].MileageLine? && DayConcepts(e, d, rate)[1].bruto == d.km
    ensures d.dieta > 0.0 ==>
      DayConcepts(e, d, rate)[if d.km > 0.0 then 2 else 1].DietLine? &&
      DayConcepts(e, d, rate)[if d.km > 0.0 then 2 else 1].bruto == d.dieta
    ensures d.alquiler > 0.0 ==> DayConcepts(e, d, rate)[|DayConcepts(e, d, rate)| - 1].bruto == d.alquiler
  {
  }

  function Reports(e: Edition, ds: seq<Day>, rate: real): (r: seq<DayReport>)
    ensures |r| == |ds|
  {
    seq(|ds|, i requires 0 <= i < |ds| => DayReport(ds[i].dia, DayConcepts(e, ds[i], rate)))
  }

  function ExpenseLine(granted: real): ExpenseReport
  {
    if granted > 0.0 then Expenses(granted, granted * 0.05, granted - granted * 0.05, granted - granted * 0.05)
    else NoExpenses
  }

  /** The vendor settlement on the allocated rental `T`: 95% of it, less a
      5% commission, less 7% income tax. */
  function Taiman(material: real): (r: Option<TaimanResult>)
    ensures r.Some? <==> material > 0.0
    ensures r.Some? ==> r.value.material == material && r.value.neto == material * 0.95 * 0.95 * 0.93
    ensures r.Some? ==> 0.0 < r.value.neto < material
    ensures r.Some? ==> r.value.irpf7 == 0.07 * r.value.baseLiq && r.value.neto == r.value.baseLiq - r.value.irpf7
  {
    if material > 0.0 then
      var importe := material - material * 0.05;
      var comision := importe * 0.05;
      var baseLiq := importe - comision;
      var irpf7 := baseLiq * 0.07;
      Some(TaimanResult(material, importe, comision, baseLiq, irpf7, baseLiq - irpf7))
    else None
  }

  function TaimanNet(r: Option<TaimanResult>): real
  {
    if r.Some? then r.value.neto else 0.0
  }

  /** The scenario built from the allocated days and expense grant. */
  function Settle(e: Edition, gross: real, a: Allocation, rate: real): ScenarioResult
  {
    var totals := AddExpense(TotalsOver(e, a.days, rate), a.expenses);
    var taiman := Taiman(Sum(Rents(a.days)));
    ScenarioResult(gross, totals.aLiquidar + TaimanNet(taiman),
                   Reports(e, a.days, rate), ExpenseLine(a.expenses), taiman, totals)
  }

  /** The whole scenario at trial gross `gross`. */
  function Evaluate(e: Edition, gross: real, inp: Inputs): ScenarioResult
  {
    Settle(e, gross, Allocate(gross, inp), inp.irpfRate)
  }

  // ---------------------------------------------------------------------
  // The engine's loop over the day records.
  // ---------------------------------------------------------------------

  /** Runs the cascade, then walks the day records accumulating the totals
      and the reports, then adds the expense line and the vendor settlement. */
  method SimulateScenario(e: Edition, gross: real, inp: Inputs) returns (s: ScenarioResult)
    ensures s == Evaluate(e, gross, inp)
  {
    var days, granted := AllocateDays(gross, inp);
    assert Allocate(gross, inp) == Allocation(days, granted);
    var totals, dayResults := SettleDays(e, days, inp.irpfRate);

    var gastosRes := NoExpenses;
    if granted > 0.0 {
      var c := granted * 0.05;
      var bl := granted - c;
      totals := totals.(bruto := totals.bruto + granted, comision := totals.comision + c,
                        coste := totals.coste + bl, aLiquidar := totals.aLiquidar + bl);
      gastosRes := Expenses(granted, c, bl, bl);
    }

    var totalAllocatedMaterial := Sum(Rents(days));
    var taimanNeto := 0.0;
    var taimanRes := None;
    if totalAllocatedMaterial > 0.0 {
      var importe := totalAllocatedMaterial - totalAllocatedMaterial * 0.05;
      var comision := importe * 0.05;
      var baseLiq := importe - comision;
      var irpf7 := baseLiq * 0.07;
      taimanNeto := baseLiq - irpf7;
      taimanRes := Some(TaimanResult(totalAllocatedMaterial, importe, comision, baseLiq, irpf7, taimanNeto));
    }
    s := ScenarioResult(gross, totals.aLiquidar + taimanNeto, dayResults, gastosRes, taimanRes, totals);
  }

  /** The loop over the day records. */
  method SettleDays(e: Edition, days: seq<Day>, rate: real) returns (totals: Totals, dayResults: seq<DayReport>)
    ensures totals == TotalsOver(e, days, rate)
    ensures dayResults == Reports(e, days, rate)
  {
    totals := NO_TOTALS;
    dayResults := [];
    for i := 0 to |days|
      invariant totals == TotalsOver(e, days[..i], rate)
      invariant dayResults == Reports(e, days[..i], rate)
    {
      var conceptos;
      totals, conceptos := SettleDay(e, totals, days[i], rate);
      assert days[..i + 1][..i] == days[..i];
      dayResults := dayResults + [DayReport(days[i].dia, conceptos)];
    }
    assert days[..|days|] == days;
  }

  /** One pass of the loop body: the withholding on the day's wage, then
      each positive extra, each adding its line to the day's report. */
  method SettleDay(e: Edition, t0: Totals, d: Day, rate: real) returns (totals: Totals, conceptos: seq<Concept>)
    ensures totals == AddDay(e, t0, d, rate)
    ensures conceptos == DayConcepts(e, d, rate)
  {
    var resCache := CalcDay(e, d.cache, rate);
    totals := Totals(t0.bruto + resCache.bruto, t0.comision + resCache.comision,
                     t0.coste + resCache.coste, t0.segSocial + resCache.segSocial,
                     t0.irpf + resCache.irpf, t0.aLiquidar + resCache.aLiquidar);
    conceptos := [WageLine(resCache.bruto, resCache.comision, resCache.coste,
                           resCache.segSocial, resCache.irpf, resCache.aLiquidar)];
    ghost var t1 := totals;
    assert t1 == AddWage(t0, resCache);
    if d.km > 0.0 {
      var c := d.km * 0.05;
      var bl := d.km - c;
      totals := totals.(bruto := totals.bruto + d.km, comision := totals.comision + c,
                        coste := totals.coste + bl, aLiquidar := totals.aLiquidar + bl);
      conceptos := conceptos + [MileageLine(d.km, c, bl, bl)];
    }
    ghost var t2 := totals;
    assert t2 == if d.km > 0.0 then AddReimbursed(t1, d.km) else t1;
    if d.dieta > 0.0 {
      var c := d.dieta * 0.05;
      var bl := d.dieta - c;
      totals := totals.(bruto := totals.bruto + d.dieta, comision := totals.comision + c,
                        coste := totals.coste + bl, aLiquidar := totals.aLiquidar + bl);
      conceptos := conceptos + [DietLine(d.dieta, c, bl, bl)];
    }
    ghost var t3 := totals;
    assert t3 == if d.dieta > 0.0 then AddReimbursed(t2, d.dieta) else t2;
    if d.alquiler > 0.0 {
      var c := d.alquiler * 0.05;
      var bl := d.alquiler - c;
      totals := totals.(bruto := totals.bruto + d.alquiler, comision := totals.comision + c,
                        coste := totals.coste + bl);
      conceptos := conceptos + [RentalLine(d.alquiler, c, bl)];
    }
    assert totals == if d.alquiler > 0.0 then AddRental(t3, d.alquiler) else t3;
  }

  // ---------------------------------------------------------------------
  // Properties of the totals.
  // ---------------------------------------------------------------------

  /** Every amount that enters the totals is charged exactly 5% commission,
      so the totals keep `comision = 0.05 · bruto` and `coste = bruto - comision`. */
  lemma {:induction false} TotalsCommission(e: Edition, ds: seq<Day>, rate: real)
    ensures TotalsOver(e, ds, rate).comision == 0.05 * TotalsOver(e, ds, rate).bruto
    ensures TotalsOver(e, ds, rate).coste == TotalsOver(e, ds, rate).bruto - TotalsOver(e, ds, rate).comision
    decreases |ds|
  {
    if |ds| > 0 {
      TotalsCommission(e, ds[..|ds| - 1], rate);
    }
  }

  predicate ExtrasNonNegative(ds: seq<Day>)
  {
    forall i :: 0 <= i < |ds| ==> ds[i].km >= 0.0 && ds[i].dieta >= 0.0 && ds[i].alquiler >= 0.0
  }

  lemma ColumnsOfPrefix(ds: seq<Day>)
    requires |ds| > 0
    ensures Caches(ds[..|ds| - 1]) == Caches(ds)[..|ds| - 1]
    ensures Kms(ds[..|ds| - 1]) == Kms(ds)[..|ds| - 1]
    ensures Diets(ds[..|ds| - 1]) == Diets(ds)[..|ds| - 1]
    ensures Rents(ds[..|ds| - 1]) == Rents(ds)[..|ds| - 1]
  {
  }

  /** With no negative extras, the gross total is everything the day records hold. */
  lemma {:induction false} TotalsGross(e: Edition, ds: seq<Day>, rate: real)
    requires ExtrasNonNegative(ds)
    ensures TotalsOver(e, ds, rate).bruto == Allocated(ds)
    decreases |ds|
  {
    if |ds| > 0 {
      var k := |ds| - 1;
      TotalsGross(e, ds[..k], rate);
      ColumnsOfPrefix(ds);
      SumSnoc(Caches(ds));
      SumSnoc(Kms(ds));
      SumSnoc(Diets(ds));
      SumSnoc(Rents(ds));
    }
  }

  /** The wage nets of the day records. */
  function WageNets(e: Edition, ds: seq<Day>, rate: real): seq<real>
  {
    seq(|ds|, i requires 0 <= i < |ds| => CalcDay(e, ds[i].cache, rate).aLiquidar)
  }

  /** The net total is the wage nets plus 95% of mileage and per-diem;
      rental contributes nothing to it. */
  lemma {:induction false} TotalsNet(e: Edition, ds: seq<Day>, rate: real)
    requires ExtrasNonNegative(ds)
    ensures TotalsOver(e, ds, rate).aLiquidar == Sum(WageNets(e, ds, rate)) + 0.95 * (Sum(Kms(ds)) + Sum(Diets(ds)))
    decreases |ds|
  {
    if |ds| > 0 {
      var k := |ds| - 1;
      TotalsNet(e, ds[..k], rate);
      DayNet(e, TotalsOver(e, ds[..k], rate), ds[k], rate);
      NetColumnsSnoc(e, ds, rate);
    }
  }

  /** The columns TotalsNet adds up, split into the earlier days and the last. */
  lemma NetColumnsSnoc(e: Edition, ds: seq<Day>, rate: real)
    requires |ds| > 0
    ensures Sum(WageNets(e, ds, rate)) == Sum(WageNets(e, ds[..|ds| - 1], rate)) + CalcDay(e, ds[|ds| - 1].cache, rate).aLiquidar
    ensures Sum(Kms(ds)) == Sum(Kms(ds[..|ds| - 1])) + ds[|ds| - 1].km
    ensures Sum(Diets(ds)) == Sum(Diets(ds[..|ds| - 1])) + ds[|ds| - 1].dieta
  {
    ColumnsOfPrefix(ds);
    assert WageNets(e, ds[..|ds| - 1], rate) == WageNets(e, ds, rate)[..|ds| - 1];
    SumSnoc(WageNets(e, ds, rate));
    SumSnoc(Kms(ds));
    SumSnoc(Diets(ds));
  }

  lemma DayNet(e: Edition, t: Totals, d: Day, rate: real)
    requires d.km >= 0.0 && d.dieta >= 0.0
    ensures AddDay(e, t, d, rate).aLiquidar == t.aLiquidar + CalcDay(e, d.cache, rate).aLiquidar + 0.95 * (d.km + d.dieta)
  {
  }

  function WithoutRental(ds: seq<Day>): seq<Day>
  {
    seq(|ds|, i requires 0 <= i < |ds| => ds[i].(alquiler := 0.0))
  }

  /** Removing the rental from every day leaves the net, social-security and
      income-tax totals unchanged: rental reaches the performer only through
      the vendor settlement. */
  lemma {:induction false} NetIgnoresRental(e: Edition, ds: seq<Day>, rate: real)
    ensures TotalsOver(e, WithoutRental(ds), rate).aLiquidar == TotalsOver(e, ds, rate).aLiquidar
    ensures TotalsOver(e, WithoutRental(ds), rate).segSocial == TotalsOver(e, ds, rate).segSocial
    ensures TotalsOver(e, WithoutRental(ds), rate).irpf == TotalsOver(e, ds, rate).irpf
    decreases |ds|
  {
    if |ds| > 0 {
      var k := |ds| - 1;
      NetIgnoresRental(e, ds[..k], rate);
      assert WithoutRental(ds)[..k] == WithoutRental(ds[..k]);
    }
  }

  // ---------------------------------------------------------------------
  // Properties of a whole scenario.
  // ---------------------------------------------------------------------

  /** The commission relation holds for the scenario totals, expense included. */
  lemma ScenarioCommission(e: Edition, gross: real, inp: Inputs)
    ensures Evaluate(e, gross, inp).totals.comision == 0.05 * Evaluate(e, gross, inp).totals.bruto
    ensures Evaluate(e, gross, inp).totals.coste == Evaluate(e, gross, inp).totals.bruto - Evaluate(e, gross, inp).totals.comision
  {
    TotalsCommission(e, Allocate(gross, inp).days, inp.irpfRate);
  }

  /** At or above the floor, with a non-negative per-diem rate, the gross
      total reported is exactly the trial gross. */
  lemma ScenarioGross(e: Edition, gross: real, inp: Inputs)
    requires gross >= Floor(inp) && inp.dietRate >= 0.0
    ensures Evaluate(e, gross, inp).totals.bruto == gross
  {
    var a := Allocate(gross, inp);
    ComponentsNonNegative(gross, inp);
    TotalsGross(e, a.days, inp.irpfRate);
    Conservation(gross, inp);
  }

  /** At or above the floor, with a non-negative per-diem rate, the net is
      the wage nets, plus 95% of what mileage, per-diem and expenses were
      granted, plus the vendor settlement on the allocated rental. */
  lemma ScenarioNet(e: Edition, gross: real, inp: Inputs)
    requires gross >= Floor(inp) && inp.dietRate >= 0.0
    ensures Evaluate(e, gross, inp).net ==
      Sum(WageNets(e, Allocate(gross, inp).days, inp.irpfRate))
      + 0.95 * (Run(gross, inp).mileage.granted + Run(gross, inp).diet.granted + Run(gross, inp).expense.granted)
      + (if Sum(Run(gross, inp).rentals) > 0.0 then Sum(Run(gross, inp).rentals) * 0.95 * 0.95 * 0.93 else 0.0)
  {
    var a := Allocate(gross, inp);
    ComponentsNonNegative(gross, inp);
    TotalsNet(e, a.days, inp.irpfRate);
    MileageColumn(gross, inp);
    DietColumn(gross, inp);
    RentalColumn(gross, inp);
  }

  /** At or above the floor, with rental requested, the vendor settlement
      applies exactly when the pool entering the rental stage is positive. */
  lemma TaimanApplies(e: Edition, gross: real, inp: Inputs)
    requires gross >= Floor(inp) && inp.rentalTotal > 0.0
    ensures Evaluate(e, gross, inp).taiman.Some? <==> Run(gross, inp).expense.bucket > 0.0
  {
    PoolNonNegative(gross, inp);
    RentalAllocation(gross, inp);
  }

  /** With no rental requested there is no vendor settlement. */
  lemma NoTaimanWithoutRental(e: Edition, gross: real, inp: Inputs)
    requires inp.rentalTotal <= 0.0
    ensures Evaluate(e, gross, inp).taiman == None
  {
    var ds := Allocate(gross, inp).days;
    NoRentalRequested(gross, inp);
    SumPrefixConst(Rents(ds), 0, 0.0);
  }
}
