# Settlement engine for performers' fees

This project models the calculation core of a small service that settles a
performer's fee. A trial gross amount is spread over the working days and
over the cost categories, in strict priority, from one shared pool. The
order is: a legal floor of 75 per day, then mileage, per-diem, justified
expenses, equipment rental (greedy, day by day), and finally the residual,
which goes to the last day's wage. On each day's wage the engine deducts:

- a 5% commission;
- a social-security charge chosen from an ordered bracket chain;
- income tax at the requested rate.

Mileage, per-diem and expenses are charged the commission only. The
allocated rental is settled separately by a second vendor ("Taiman"), which
takes 95%, then a 5% commission, then 7% income tax. Two entry points sit on
top of the engine:

- gross to net, which raises the principal to the floor and says so;
- net to gross, a bisection of at most 100 evaluations with a tolerance of
  half a cent.

There are two copies of the engine, and the model covers both:

- `main2.py` takes the per-diem rate from a table of diet kinds and prices
  rental items through a material catalog, skipping unknown ids.
- `dev/main.py` takes the rate and the prices from the request. Its fourth
  social-security bracket charges 179.49 instead of 176.49.

The shared engine is parametrised by `DayTax.Edition`. The modules
`Main2` and `DevMain` turn a request into the engine's numeric `Inputs`.

Layout:

- `day_tax.dfy` (`DayTax`): the per-day withholding. It also holds an
  independent first-match table for the bracket chain, proved equal to the
  chain.
- `pool.dfy` (`Pool`): sums and the greedy rental take.
- `cascade.dfy` (`Cascade`): the cascade as functions of the pool.
  `AllocateDays` runs the engine's loops over an array of day records
  updated in place, and is proved equal to `Allocate`.
- `scenario.dfy` (`Scenario`): one scenario. The totals and reports loop
  (`SimulateScenario`, `SettleDays`, `SettleDay`) is proved equal to the fold
  `TotalsOver` and to `Evaluate`.
- `endpoints.dfy` (`Endpoints`): the response structure and both entry points.
- `main2.dfy`, `dev_main.dfy`: the request handling of each copy.

Amounts are `real`, so the model has no floating-point error and no rounding.

Two facts about the code are worth stating plainly:

- A gross of exactly 477.25 falls in the formula bracket, because the chain
  tests `<=`.
- A day's net is not non-negative for every non-negative gross. Below 75 the
  fixed charge of 21.0 can exceed the cost. The model proves non-negativity
  at a gross of 75 or more and a rate of at most 100%
  (`DayTax.WageNetNonNegative`).

## Model

| member | source | states |
|---|---|---|
| DayTax.SelectIsFirstMatch | main2.py:73-93 | the table search returns the charge of the first row whose bound the gross does not exceed |
| DayTax.SelectAboveAll | main2.py:92-93 | above every bound the search gives the top charge 310.27 |
| DayTax.ScheduleAscending | main2.py:74-91 | the bracket bounds are strictly ascending, so the first match is the only sensible one |
| DayTax.ChainIsFirstMatch | dev/main.py:41-61 | the if/elif chain `SocialSecurity` equals the first-match search over the bracket table on every gross, for either copy's fourth charge |
| DayTax.SocialSecurityBrackets | main2.py:73-93 | `SocialSecurity` branch by branch: 21.0 up to 75; the formula on `0.95 · bruto` up to 477.25; then the fixed charges up to above 3158.85 |
| DayTax.SocialSecurityMonotone | main2.py:73-93 | for any `a <= b`, `SocialSecurity` of either lies in [21.0, 310.27] and never decreases from a to b |
| DayTax.CalcDay | main2.py:69-102 | commission `0.05·b`, cost `0.95·b`, the bracketed charge, base = cost − charge, tax = base · rate / 100, net = gross − commission − charge − tax |
| DayTax.NetClosedForm | main2.py:95-97 | the net in closed form: `b − 0.05b − ss − (0.95b − ss)·rate/100` |
| DayTax.WageNetNonNegative | main2.py:73-97 | at a gross of 75 or more and a rate of at most 100%, the base is positive, 0 ≤ tax ≤ base and the net is non-negative |
| Pool.GreedyShares | main2.py:161-165 | one greedy share per day |
| Pool.GreedyAccounts | main2.py:162-165 | the shares taken plus the pool left equal the pool entering the stage |
| Pool.GreedyShape | main2.py:161-166 | from a non-negative pool each share is in [0, total], the shares never increase, after a partial share all later shares are 0, and the pool stays non-negative |
| Pool.ZeroPoolTakesNothing | main2.py:163 | from an empty pool every day takes 0 |
| Pool.GreedySum | main2.py:161-166 | the shares sum to `min(pool, days · total)` |
| Cascade.DayCount | main2.py:127 | `max(1, dias_trabajo)` is at least 1 and at least the requested days |
| Cascade.DietDayCount | main2.py:128 | `min(dias_dieta, dias)` never exceeds the day count |
| Cascade.MileageStage | main2.py:133-142 | the grant is `min(km · 0.2737 · n, pool)` when mileage is positive, else nothing; n shares make the grant; the pool left is `max(0, pool − grant)`; the full rate when covered |
| Cascade.DietStage | main2.py:144-152 | the grant is `min(rate · dd, pool)` when `dd > 0`; dd shares make the grant; the pool left is `max(0, pool − grant)`; the full rate when covered; share ≥ 0 for a non-negative rate |
| Cascade.ExpenseStage | main2.py:154-158 | the grant is `min(requested, pool)` when both are positive, else 0, and it is taken from the pool |
| Cascade.RentalShares | main2.py:160-166 | one rental share per day |
| Cascade.Run | main2.py:127-170 | one rental entry per working day |
| Cascade.Allocate | main2.py:131 | one day record per working day |
| Cascade.AllocateDays | main2.py:127-170 | the in-place loops produce exactly the records and expense grant of `Allocate` |
| Cascade.MileagePass | main2.py:133-142 | the mileage loop sets every day's `km` to the stage's share, leaves the rest of each record unchanged and returns the stage's pool |
| Cascade.DietPass | main2.py:144-152 | the per-diem loop sets `dieta` on the first `dd` days only and returns the stage's pool |
| Cascade.SpreadMileage | main2.py:139-141 | after the loop every day holds the share and the pool fell by `n · share` |
| Cascade.SpreadDiet | main2.py:149-151 | after the loop the first `dd` days hold the share, the others are unchanged, and the pool fell by `dd · share` |
| Cascade.TakeRentals | main2.py:162-165 | the loop assigns each day its greedy share and leaves the greedy remainder |
| Cascade.WageFloor | main2.py:168-170 | every wage is at least 75; all but the last are exactly 75; the last gets 75 plus the positive residual |
| Cascade.PoolNonNegative | main2.py:129-170 | at or above the floor the pool is non-negative after each stage, and each stage removes exactly what it grants |
| Cascade.RentalAccounts | main2.py:160-166 | the residual is the pool entering the rental stage minus the rental taken, and it is non-negative |
| Cascade.Conservation | main2.py:127-170 | at or above the floor, wages + mileage + per-diem + rental + expenses equal the trial gross |
| Cascade.WageColumn | main2.py:131 | the wages sum to the floor plus the residual |
| Cascade.MileageColumn | main2.py:139-141 | the mileage column sums to the mileage grant |
| Cascade.DietColumn | main2.py:149-151 | the per-diem column sums to the per-diem grant |
| Cascade.RentalColumn | main2.py:164 | the rental column is the stage's list of greedy shares |
| Cascade.MileageSplit | main2.py:133-142 | every day has the same mileage share: 0 without mileage, the full rate when the pool covers it |
| Cascade.DietSplit | main2.py:144-152 | the first `dd` days share the per-diem grant equally (the full rate when covered); later days get 0 |
| Cascade.ExpenseGrant | main2.py:154-158 | the expense grant is `min(requested, pool)` when both are positive, else 0 |
| Cascade.RentalAllocation | main2.py:160-166 | the greedy shape of the rental column on the assembled days, summing to `min(pool, dias · total_alquiler)` |
| Cascade.RentalSum | main2.py:160-166 | the rental shares sum to `min(pool, dias · total_alquiler)` |
| Cascade.ComponentsNonNegative | main2.py:127-166 | at or above the floor, with a non-negative per-diem rate, no mileage, per-diem, rental or expense amount is negative |
| Cascade.NoRentalRequested | main2.py:161 | with no rental total no day gets rental |
| Scenario.DayConceptsShape | main2.py:185-204 | wage line first with `bruto = cache`, `comision = 0.05·cache`, `base_liquidable` the cost `0.95·cache`, and the day's social security, tax and net; then a mileage line of `km`, a per-diem line of `dieta` and a rental line of `alquiler`, each present iff positive and in that order, with 5% commission and a 95% remainder paid out except for rental; the rental line is last iff there is rental |
| Scenario.Reports | main2.py:206 | one report per day |
| Scenario.Taiman | main2.py:214-223 | present iff the allocated rental is positive; net `T · 0.95 · 0.95 · 0.93`, strictly between 0 and T; tax 7% of the base |
| Scenario.SimulateScenario | main2.py:127-241 | the engine's imperative run equals the specification `Evaluate` |
| Scenario.SettleDays | main2.py:172-206 | the loop over the days yields the fold `TotalsOver` and the reports |
| Scenario.SettleDay | main2.py:176-204 | one loop body adds the day to the totals and builds its concept list |
| Scenario.TotalsCommission | main2.py:172-204 | the totals keep `comision = 0.05 · bruto` and `coste = bruto − comision` |
| Scenario.TotalsGross | main2.py:172-204 | with no negative extras, the gross total is the sum of all the day records hold |
| Scenario.TotalsNet | main2.py:172-204 | the net total is the sum of the wage nets (`WageNets`: each day's `calcular_dia` net) plus 95% of the mileage and per-diem columns; rental adds nothing |
| Scenario.NetIgnoresRental | main2.py:201-204 | the days with every rental set to 0 (`WithoutRental`) have the same net, social-security and tax totals |
| Scenario.ScenarioCommission | main2.py:172-212 | the commission relation holds for a whole scenario's totals, expenses included |
| Scenario.ScenarioGross | main2.py:127-212 | at or above the floor, with a non-negative per-diem rate, the totals' gross is the trial gross |
| Scenario.ScenarioNet | main2.py:234-241 | the net is the wage nets plus 95% of the mileage, per-diem and expense grants plus the vendor net on the rental |
| Scenario.TaimanApplies | main2.py:214-218 | with rental requested, at or above the floor, the vendor settlement applies iff the pool entering the rental stage is positive |
| Scenario.NoTaimanWithoutRental | main2.py:218 | with no rental requested there is no vendor settlement |
| Endpoints.FormatResponse | main2.py:243-260 | a warning iff adjusted; figures passed through; `aplica_taiman` iff the vendor result is present |
| Endpoints.GrossToNet | main2.py:266-271 | gross used = `max(principal, floor)`; a warning iff the principal was below the floor; the response is that scenario's; its gross total is the gross used for a non-negative per-diem rate |
| Endpoints.Bisect | main2.py:282-297 | 1 to 100 evaluations; fewer than 100 only on a hit within 0.005; the result is the scenario at its own gross, inside the shrinking interval; on no hit it sits at the end the update rule moved, and `2^100 · (hi − lo)` is the initial width |
| Endpoints.NetToGross | main2.py:273-299 | a target reached at the floor gives the flagged floor scenario with no search; otherwise an unflagged scenario at its own gross, within tolerance if the loop stopped early, inside `[floor, 3·target + floor + 1000]` |
| Main2.TablesComplete | main2.py:12-32 | every diet kind has a rate, and every rate and catalog price is positive |
| Main2.DietRate | main2.py:106 | the per-diem rate of any diet kind is positive |
| Main2.RentalTotal | main2.py:109-125 | the catalog loop computes `CatalogTotal` |
| Main2.Known | main2.py:112-125 | the known items: every kept item has a catalog id and was requested, and every requested item with a catalog id is kept |
| Main2.UnknownIdsIgnored | main2.py:123-125 | the total equals the total over the known items alone |
| Main2.CatalogTotalPositive | main2.py:112-125 | with quantities of at least 1 the total is non-negative, and positive iff some requested id is in the catalog |
| Main2.ResolveInputs | main2.py:105-125 | the rate lookup and the catalog loop give the request's engine inputs `Resolve(req)`, with a positive per-diem rate and the catalog total as the rental total |
| Main2.Simulate | main2.py:104-241 | `ResolveInputs`, then the shared engine with the 176.49 bracket |
| Main2.BrutoANeto | main2.py:266-271 | the clamp, the warning and the scenario; the gross total always equals the gross used |
| Main2.NetoABruto | main2.py:273-299 | the floor case, the search case, the tolerance, and the gross found inside `[floor, 3·target + floor + 1000]` when that interval is not inverted, for the request's resolved inputs |
| DevMain.RentalTotalAppend | dev/main.py:111 | `RentalTotal`, the sum of `precio · cantidad` over all items (`Subtotals`), grows by exactly the appended item's subtotal: every item counts, whatever its name |
| DevMain.Simulate | dev/main.py:72-199 | the shared engine with the 179.49 bracket, on the request's own rate and prices |
| DevMain.BrutoANeto | dev/main.py:225-233 | the clamp, the warning and the scenario; the gross total equals the gross used for a non-negative per-diem rate |
| DevMain.NetoABruto | dev/main.py:235-270 | the floor case, the search case, the tolerance, and the gross found inside `[floor, 3·target + floor + 1000]` when that interval is not inverted |

## Left out

- The HTTP layer (FastAPI routes and Pydantic validation) is not modelled. The `ge=` bounds on the request are not assumed, so every contract holds for any input it does not explicitly require.
- Floating point and `round(…, 2)`: amounts are exact reals, and the response carries the unrounded figures.
- The `"status"` field, the display strings of the concept lines (`"tipo"`, `"via Taiman"`) and the `materiales_procesados` detail list are not modelled.
- Monotonicity of the net in the gross, and a round trip between the two entry points, are not claimed. The wage net can fall just above each bracket bound (75, 477.25, 729.42, 1250.26, 2023.02, 2287.31, 2732.66 and 3158.85), where the charge jumps upwards.
- Endpoints.Bisect: does not state that the net at `lo` is below the target and the net at `hi` above it. The model states only the update rule on the final scenario and the halving of the interval.
- Endpoints.NetToGross: inherits the Bisect gap above. Its interval bounds hold only when `floor <= 3 · target + floor + 1000`, since otherwise the initial interval is empty.
- Main2.NetoABruto: the catalog and the rate are resolved once per request rather than inside every evaluation. The lookup is a pure function of the request, so the result is the same.
- DevMain.NetoABruto: the `bruto_final` variable of the loop is assigned but never read, and is not modelled.
- DevMain.BrutoANeto: for a negative `tarifa_dieta`, which the request does not forbid, the negative per-diem share is not added to the totals, so the gross total can differ from the gross used.
