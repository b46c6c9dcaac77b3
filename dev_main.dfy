/** The development edition of the engine: the per-diem rate and the rental
    prices are taken from the request as given, and every rental item
    counts. Its fourth social-security bracket charges 179.49. */
module DevMain {

  import opened Pool
  import opened Cascade
  import opened Scenario
  import opened Endpoints
  import DayTax

  datatype PricedItem = PricedItem(nombre: string, precio: real, cantidad: int)

  datatype Request = Request(
    importePrincipal: real, diasTrabajo: int, porcentajeIrpf: real,
    kilometrajeTotal: real, diasDieta: int, tarifaDieta: real,
    gastosJustificados: real, alquilerMaterial: seq<PricedItem>)

  function Subtotals(items: seq<PricedItem>): seq<real>
  {
    seq(|items|, i requires 0 <= i < |items| => items[i].precio * items[i].cantidad as real)
  }

  /** `sum(precio · cantidad)` over all requested items. */
  function RentalTotal(items: seq<PricedItem>): real
  {
    Sum(Subtotals(items))
  }

  /** Every item counts, whatever its name: appending one adds its subtotal. */
  lemma RentalTotalAppend(items: seq<PricedItem>, item: PricedItem)
    ensures RentalTotal(items + [item]) == RentalTotal(items) + item.precio * item.cantidad as real
  {
    var s := Subtotals(items + [item]);
    forall i | 0 <= i < |items|
      ensures s[i] == Subtotals(items)[i]
    {
      assert (items + [item])[i] == items[i];
    }
    assert s[..|items|] == Subtotals(items);
    SumSnoc(s);
  }

  function Resolve(req: Request): Inputs
  {
    Inputs(req.diasTrabajo, req.porcentajeIrpf, req.kilometrajeTotal, req.diasDieta,
           req.tarifaDieta, req.gastosJustificados, RentalTotal(req.alquilerMaterial))
  }

  method Simulate(gross: real, req: Request) returns (s: ScenarioResult)
    ensures s == Evaluate(DayTax.Dev, gross, Resolve(req))
  {
    s := SimulateScenario(DayTax.Dev, gross, Resolve(req));
  }

  /** Gross to net. The per-diem rate is not constrained by the request, so
      the reported gross total equals the gross used only for a
      non-negative rate: a negative per-diem share is left out of the totals. */
  method BrutoANeto(req: Request) returns (r: Response)
    ensures r.grossNeeded == Max(req.importePrincipal, Floor(Resolve(req)))
    ensures |r.warnings| > 0 <==> req.importePrincipal < Floor(Resolve(req))
    ensures r == FormatResponse(Evaluate(DayTax.Dev, r.grossNeeded, Resolve(req)), req.importePrincipal < Floor(Resolve(req)))
    ensures req.tarifaDieta >= 0.0 ==> r.totals.bruto == r.grossNeeded
  {
    r := GrossToNet(DayTax.Dev, Resolve(req), req.importePrincipal);
  }

  method NetoABruto(req: Request) returns (r: Response, evaluations: nat)
    ensures evaluations <= MAX_ITERATIONS
    ensures req.importePrincipal <= Evaluate(DayTax.Dev, Floor(Resolve(req)), Resolve(req)).net ==>
      evaluations == 0 && r == FormatResponse(Evaluate(DayTax.Dev, Floor(Resolve(req)), Resolve(req)), true)
    ensures req.importePrincipal > Evaluate(DayTax.Dev, Floor(Resolve(req)), Resolve(req)).net ==>
      evaluations >= 1 && r.warnings == [] && r == FormatResponse(Evaluate(DayTax.Dev, r.grossNeeded, Resolve(req)), false)
    ensures req.importePrincipal > Evaluate(DayTax.Dev, Floor(Resolve(req)), Resolve(req)).net && evaluations < MAX_ITERATIONS ==>
      Abs(r.netTotal - req.importePrincipal) < TOLERANCE
    ensures req.importePrincipal > Evaluate(DayTax.Dev, Floor(Resolve(req)), Resolve(req)).net &&
            Floor(Resolve(req)) <= SearchCeiling(req.importePrincipal, Resolve(req)) ==>
      Floor(Resolve(req)) <= r.grossNeeded <= SearchCeiling(req.importePrincipal, Resolve(req))
  {
    ghost var lo, hi;
    r, evaluations, lo, hi := NetToGross(DayTax.Dev, Resolve(req), req.importePrincipal);
  }
}
