/** The catalog edition of the engine: the per-diem rate comes from a table
    of diet kinds and rental prices from a material catalog, keyed by id;
    ids missing from the catalog are skipped without error. */
module Main2 {

  import opened Pool
  import opened Cascade
  import opened Scenario
  import opened Endpoints
  import DayTax

  datatype DietKind = Nacional | Internacional | PernoctaNacional | PernoctaInternacional

  const DIET_RATES: map<DietKind, real> := map[
    Nacional := 28.0736,
    Internacional := 50.6105,
    PernoctaNacional := 56.1473,
    PernoctaInternacional := 96.1578]

  datatype CatalogEntry = CatalogEntry(nombre: string, precio: real)

  const CATALOG: map<string, CatalogEntry> := map[
    "altavoces" := CatalogEntry("Altavoces", 105.2632),
    "bajos" := CatalogEntry("Bajos y complementos", 73.6842),
    "bateria_acustica" := CatalogEntry("Batería acústica", 105.2632),
    "bateria_electrica" := CatalogEntry("Batería eléctrica", 105.2632),
    "cables" := CatalogEntry("Cables", 5.2632),
    "clarinete" := CatalogEntry("Clarinete", 84.2105),
    "contrabajo" := CatalogEntry("Contrabajo", 105.2632),
    "guitarra_acustica" := CatalogEntry("Guitarra acústica", 73.6842),
    "guitarra_clasica" := CatalogEntry("Guitarra clásica", 63.1579),
    "guitarra_electrica" := CatalogEntry("Guitarra eléctrica", 105.2632),
    "microfono" := CatalogEntry("Micrófono", 52.6316),
    "ordenador" := CatalogEntry("Ordenador", 63.1579)]

  datatype RentalItem = RentalItem(idMaterial: string, cantidad: int)

  datatype Request = Request(
    importePrincipal: real, diasTrabajo: int, porcentajeIrpf: real,
    kilometrajeTotal: real, diasDieta: int, tipoDieta: DietKind,
    gastosJustificados: real, alquilerMaterial: seq<RentalItem>)

  /** Every diet kind has a rate, and every rate and catalog price is positive. */
  lemma TablesComplete()
    ensures forall k: DietKind :: k in DIET_RATES && DIET_RATES[k] > 0.0
    ensures forall id :: id in CATALOG ==> CATALOG[id].precio > 0.0
  {
    forall k: DietKind
      ensures k in DIET_RATES && DIET_RATES[k] > 0.0
    {
      match k
      case Nacional =>
      case Internacional =>
      case PernoctaNacional =>
      case PernoctaInternacional =>
    }
  }

  function DietRate(k: DietKind): (r: real)
    ensures r > 0.0
  {
    TablesComplete();
    DIET_RATES[k]
  }

  /** What one requested item adds to the rental total. */
  function Subtotal(item: RentalItem): real
  {
    if item.idMaterial in CATALOG then CATALOG[item.idMaterial].precio * item.cantidad as real else 0.0
  }

  /** The rental total, accumulated item by item. */
  function CatalogTotal(items: seq<RentalItem>): real
    decreases |items|
  {
    if |items| == 0 then 0.0
    else CatalogTotal(items[..|items| - 1]) + Subtotal(items[|items| - 1])
  }

  /** The loop that prices the requested material against the catalog. */
  method RentalTotal(items: seq<RentalItem>) returns (total: real)
    ensures total == CatalogTotal(items)
  {
    total := 0.0;
    for i := 0 to |items|
      invariant total == CatalogTotal(items[..i])
    {
      var item := items[i];
      if item.idMaterial in CATALOG {
        var itemBd := CATALOG[item.idMaterial];
        var subtotal := itemBd.precio * item.cantidad as real;
        total := total + subtotal;
      }
      assert items[..i + 1][..i] == items[..i];
    }
    assert items[..|items|] == items;
  }

  /** The requested items whose id is in the catalog, in order. */
  function Known(items: seq<RentalItem>): (r: seq<RentalItem>)
    ensures |r| <= |items|
    ensures forall i :: 0 <= i < |r| ==> r[i].idMaterial in CATALOG
    ensures forall it :: it in items && it.idMaterial in CATALOG ==> it in r
    ensures forall it :: it in r ==> it in items
    decreases |items|
  {
    if |items| == 0 then []
    else
      var last := items[|items| - 1];
      Known(items[..|items| - 1]) + (if last.idMaterial in CATALOG then [last] else [])
  }

  /** Unknown ids contribute nothing: the total is that of the known items alone. */
  lemma {:induction false} UnknownIdsIgnored(items: seq<RentalItem>)
    ensures CatalogTotal(items) == CatalogTotal(Known(items))
    decreases |items|
  {
    if |items| > 0 {
      var k := |items| - 1;
      var ks := Known(items[..k]);
      UnknownIdsIgnored(items[..k]);
      if items[k].idMaterial in CATALOG {
        assert (ks + [items[k]])[..|ks|] == ks;
      } else {
        assert ks + [] == ks;
      }
    }
  }

  /** With quantities of at least one, the total is non-negative, and it is
      positive exactly when some requested id is in the catalog. */
  lemma {:induction false} CatalogTotalPositive(items: seq<RentalItem>)
    requires forall i :: 0 <= i < |items| ==> items[i].cantidad >= 1
    ensures CatalogTotal(items) >= 0.0
    ensures CatalogTotal(items) > 0.0 <==> exists i :: 0 <= i < |items| && items[i].idMaterial in CATALOG
    decreases |items|
  {
    TablesComplete();
    if |items| > 0 {
      var k := |items| - 1;
      CatalogTotalPositive(items[..k]);
      if items[k].idMaterial in CATALOG {
        PositiveProduct(CATALOG[items[k].idMaterial].precio, items[k].cantidad);
        assert 0 <= k < |items| && items[k].idMaterial in CATALOG;
      } else {
        if exists i :: 0 <= i < |items| && items[i].idMaterial in CATALOG {
          var i :| 0 <= i < |items| && items[i].idMaterial in CATALOG;
          assert i < k && items[..k][i] == items[i];
        }
        if exists i :: 0 <= i < k && items[..k][i].idMaterial in CATALOG {
          var i :| 0 <= i < k && items[..k][i].idMaterial in CATALOG;
          assert items[i].idMaterial in CATALOG;
        }
      }
    }
  }

  lemma PositiveProduct(price: real, quantity: int)
    requires price > 0.0 && quantity >= 1
    ensures price * quantity as real > 0.0
  {
  }

  /** The numeric inputs of the shared engine for a request. */
  function Resolve(req: Request): Inputs
  {
    Inputs(req.diasTrabajo, req.porcentajeIrpf, req.kilometrajeTotal, req.diasDieta,
           DietRate(req.tipoDieta), req.gastosJustificados, CatalogTotal(req.alquilerMaterial))
  }

  /** The rate lookup and the catalog loop that open every scenario. */
  method ResolveInputs(req: Request) returns (inp: Inputs)
    ensures inp == Resolve(req)
    ensures inp.dietRate > 0.0
    ensures inp.rentalTotal == CatalogTotal(req.alquilerMaterial)
  {
    TablesComplete();
    var precioDietaReal := DIET_RATES[req.tipoDieta];
    var totalAlquiler := RentalTotal(req.alquilerMaterial);
    inp := Inputs(req.diasTrabajo, req.porcentajeIrpf, req.kilometrajeTotal, req.diasDieta,
                  precioDietaReal, req.gastosJustificados, totalAlquiler);
  }

  /** One scenario: the rate and the catalog lookups, then the shared engine. */
  method Simulate(gross: real, req: Request) returns (s: ScenarioResult)
    ensures s == Evaluate(DayTax.Main2, gross, Resolve(req))
  {
    var inp := ResolveInputs(req);
    s := SimulateScenario(DayTax.Main2, gross, inp);
  }

  /** Gross to net; every per-diem rate being positive, the reported gross
      total always equals the gross used. */
  method BrutoANeto(req: Request) returns (r: Response)
    ensures r.grossNeeded == Max(req.importePrincipal, Floor(Resolve(req)))
    ensures |r.warnings| > 0 <==> req.importePrincipal < Floor(Resolve(req))
    ensures r == FormatResponse(Evaluate(DayTax.Main2, r.grossNeeded, Resolve(req)), req.importePrincipal < Floor(Resolve(req)))
    ensures r.totals.bruto == r.grossNeeded
  {
    var inp := ResolveInputs(req);
    r := GrossToNet(DayTax.Main2, inp, req.importePrincipal);
  }

  /** Net to gross for a request. */
  method NetoABruto(req: Request) returns (r: Response, evaluations: nat)
    ensures evaluations <= MAX_ITERATIONS
    ensures req.importePrincipal <= Evaluate(DayTax.Main2, Floor(Resolve(req)), Resolve(req)).net ==>
      evaluations == 0 && r == FormatResponse(Evaluate(DayTax.Main2, Floor(Resolve(req)), Resolve(req)), true)
    ensures req.importePrincipal > Evaluate(DayTax.Main2, Floor(Resolve(req)), Resolve(req)).net ==>
      evaluations >= 1 && r.warnings == [] && r == FormatResponse(Evaluate(DayTax.Main2, r.grossNeeded, Resolve(req)), false)
    ensures req.importePrincipal > Evaluate(DayTax.Main2, Floor(Resolve(req)), Resolve(req)).net && evaluations < MAX_ITERATIONS ==>
      Abs(r.netTotal - req.importePrincipal) < TOLERANCE
    ensures req.importePrincipal > Evaluate(DayTax.Main2, Floor(Resolve(req)), Resolve(req)).net &&
            Floor(Resolve(req)) <= SearchCeiling(req.importePrincipal, Resolve(req)) ==>
      Floor(Resolve(req)) <= r.grossNeeded <= SearchCeiling(req.importePrincipal, Resolve(req))
  {
    var inp := ResolveInputs(req);
    ghost var lo, hi;
    r, evaluations, lo, hi := NetToGross(DayTax.Main2, inp, req.importePrincipal);
  }
}
