/** The allocation cascade: a trial gross is spread over the working days and
    the cost categories, in strict priority, from one shared pool ("bucket")
    seeded with the trial gross minus the legal floor of 75 per day. */
module Cascade {

  import opened Pool

  const WAGE_FLOOR: real := 75.0
  const MILEAGE_RATE: real := 0.2737

  /** Request data the cascade needs, with the per-diem rate and the rental
      total already resolved to numbers. */
  datatype Inputs = Inputs(
    workDays: int, irpfRate: real, mileage: real, dietDays: int,
    dietRate: real, expenses: real, rentalTotal: real)

  /** One day's record; `cache` is the wage component. */
  datatype Day = Day(dia: int, cache: real, km: real, dieta: real, alquiler: real)

  /** `max(1, dias_trabajo)`. */
  function DayCount(inp: Inputs): (n: nat)
    ensures n >= 1 && n >= inp.workDays
  {
    if inp.workDays < 1 then 1 else inp.workDays
  }

  /** `min(dias_dieta, dias)`. */
  function DietDayCount(inp: Inputs): (dd: int)
    ensures dd <= DayCount(inp)
  {
    if inp.dietDays < DayCount(inp) then inp.dietDays else DayCount(inp)
  }

  /** The legal minimum gross: 75 per working day. */
  function Floor(inp: Inputs): real
  {
    DayCount(inp) as real * WAGE_FLOOR
  }

  // ---------------------------------------------------------------------
  // The stages as functions of the pool, in the order the engine runs them.
  // ---------------------------------------------------------------------

  /** What a stage grants per day, what it grants in all, and the pool it leaves. */
  datatype Split = Split(share: real, granted: real, bucket: real)

  /** Stage 1: mileage, `min(kilometraje_total · 0.2737 · dias, pool)` split
      equally over all days. */
  function MileageStage(mileage: real, n: nat, b: real): (s: Split)
    requires n >= 1
    ensures s.granted == (if mileage > 0.0 then Min(mileage * MILEAGE_RATE * n as real, b) else 0.0)
    ensures n as real * s.share == s.granted
    ensures mileage > 0.0 ==> s.bucket == Max(0.0, b - s.granted)
    ensures mileage <= 0.0 ==> s == Split(0.0, 0.0, b)
    ensures b >= 0.0 ==> s.bucket == b - s.granted >= 0.0
    ensures mileage > 0.0 && mileage * MILEAGE_RATE * n as real <= b ==> s.share == mileage * MILEAGE_RATE
    ensures b >= 0.0 ==> s.share >= 0.0
  {
    if mileage > 0.0 then
      var available := Min(mileage * MILEAGE_RATE * n as real, b);
      MulDivCancel(available, n as real);
      MulDivCancel(mileage * MILEAGE_RATE, n as real);
      Split(available / n as real, available, Max(0.0, b - available))
    else Split(0.0, 0.0, b)
  }

  /** Stage 2: per-diem, `min(rate · dd, pool)` split equally over the first `dd` days. */
  function DietStage(rate: real, dd: int, b: real): (s: Split)
    ensures s.granted == (if dd > 0 then Min(rate * dd as real, b) else 0.0)
    ensures dd > 0 ==> dd as real * s.share == s.granted && s.bucket == Max(0.0, b - s.granted)
    ensures dd <= 0 ==> s == Split(0.0, 0.0, b)
    ensures b >= 0.0 ==> s.bucket == b - s.granted >= 0.0
    ensures dd > 0 && rate * dd as real <= b ==> s.share == rate
    ensures b >= 0.0 && rate >= 0.0 ==> s.share >= 0.0
  {
    if dd > 0 then
      var available := Min(rate * dd as real, b);
      MulDivCancel(available, dd as real);
      MulDivCancel(rate, dd as real);
      Split(available / dd as real, available, Max(0.0, b - available))
    else Split(0.0, 0.0, b)
  }

  lemma MulDivCancel(x: real, n: real)
    requires n > 0.0
    ensures n * (x / n) == x
    ensures (x * n) / n == x
    ensures x >= 0.0 ==> x / n >= 0.0
  {
  }

  /** Stage 3: justified expenses, one lump, only when both the request and the pool are positive. */
  function ExpenseStage(requested: real, b: real): (s: Split)
    ensures s.granted == s.share == (if requested > 0.0 && b > 0.0 then Min(requested, b) else 0.0)
    ensures s.bucket == b - s.granted
    ensures b >= 0.0 ==> s.bucket >= 0.0
  {
    if requested > 0.0 && b > 0.0 then
      var grant := Min(requested, b);
      Split(grant, grant, b - grant)
    else Split(0.0, 0.0, b)
  }

  /** Stage 4 runs only when the rental total is positive. */
  function RentalShares(total: real, b: real, n: nat): (r: seq<real>)
    ensures |r| == n
  {
    if total > 0.0 then GreedyShares(total, b, n) else seq(n, _ => 0.0)
  }

  function RentalLeft(total: real, b: real, n: nat): real
  {
    if total > 0.0 then Max(0.0, GreedyLeft(total, b, n)) else b
  }

  /** The pool between stages. */
  datatype Trace = Trace(
    seed: real, mileage: Split, diet: Split, expense: Split,
    rentals: seq<real>, residual: real)

  function Run(gross: real, inp: Inputs): (t: Trace)
    ensures |t.rentals| == DayCount(inp)
  {
    var n := DayCount(inp);
    var seed := gross - n as real * WAGE_FLOOR;
    var km := MileageStage(inp.mileage, n, seed);
    var diet := DietStage(inp.dietRate, DietDayCount(inp), km.bucket);
    var exp := ExpenseStage(inp.expenses, diet.bucket);
    Trace(seed, km, diet, exp,
          RentalShares(inp.rentalTotal, exp.bucket, n),
          RentalLeft(inp.rentalTotal, exp.bucket, n))
  }

  /** Day `i` (0-based) of `n` once the cascade is done: stage 5 adds the
      residual pool to the last day's wage. */
  function DayAt(i: nat, n: nat, dd: int, km: real, diet: real, rent: real, residual: real): Day
  {
    Day(i + 1,
        if i == n - 1 && residual > 0.0 then WAGE_FLOOR + residual else WAGE_FLOOR,
        km,
        if i < dd then diet else 0.0,
        rent)
  }

  datatype Allocation = Allocation(days: seq<Day>, expenses: real)

  function Allocate(gross: real, inp: Inputs): (a: Allocation)
    ensures |a.days| == DayCount(inp)
  {
    var n := DayCount(inp);
    var t := Run(gross, inp);
    Allocation(
      seq(n, i requires 0 <= i < n =>
        DayAt(i, n, DietDayCount(inp), t.mileage.share, t.diet.share, t.rentals[i], t.residual)),
      t.expense.share)
  }

  // ---------------------------------------------------------------------
  // The engine's loops over the mutable list of day records.
  // ---------------------------------------------------------------------

  /** Builds the day records in an array updated in place, stage by stage,
      with the pool decremented inside each loop. */
  method AllocateDays(gross: real, inp: Inputs) returns (days: seq<Day>, expenses: real)
    ensures days == Allocate(gross, inp).days
    ensures expenses == Allocate(gross, inp).expenses
  {
    var n := DayCount(inp);
    var dd := DietDayCount(inp);
    ghost var t := Run(gross, inp);
    var bucket := gross - n as real * WAGE_FLOOR;
    var d := new Day[n](i => Day(i + 1, WAGE_FLOOR, 0.0, 0.0, 0.0));

    // 1. mileage
    var perDayKm;
    perDayKm, bucket := MileagePass(d, inp.mileage, bucket);
    assert perDayKm == t.mileage.share && bucket == t.mileage.bucket;

    // 2. per-diem
    var perDayDiet;
    perDayDiet, bucket := DietPass(d, inp.dietRate, dd, bucket);
    assert perDayDiet == t.diet.share && bucket == t.diet.bucket;

    // 3. justified expenses
    expenses := 0.0;
    if inp.expenses > 0.0 && bucket > 0.0 {
      expenses := Min(inp.expenses, bucket);
      bucket := bucket - expenses;
    }
    assert expenses == t.expense.share && bucket == t.expense.bucket;

    // 4. equipment rental, greedy day by day
    if inp.rentalTotal > 0.0 {
      bucket := TakeRentals(d, inp.rentalTotal, bucket);
      bucket := Max(0.0, bucket);
    }
    assert bucket == t.residual;

    // 5. residual to the last day's wage
    if bucket > 0.0 {
      d[n - 1] := d[n - 1].(cache := d[n - 1].cache + bucket);
    }
    days := d[..];
    assert forall j :: 0 <= j < n ==>
      days[j] == DayAt(j, n, dd, t.mileage.share, t.diet.share, t.rentals[j], t.residual);
  }

  /** Stage 1: the per-day mileage share and the pool it leaves. */
  method MileagePass(d: array<Day>, mileage: real, b0: real) returns (perDayKm: real, bucket: real)
    requires d.Length >= 1
    modifies d
    ensures perDayKm == MileageStage(mileage, d.Length, b0).share
    ensures bucket == MileageStage(mileage, d.Length, b0).bucket
    ensures forall j :: 0 <= j < d.Length ==> d[j] == if mileage > 0.0 then old(d[j]).(km := perDayKm) else old(d[j])
  {
    var n := d.Length;
    perDayKm := 0.0;
    bucket := b0;
    if mileage > 0.0 {
      var totalReqKm := mileage * MILEAGE_RATE * n as real;
      var availableKm := Min(totalReqKm, bucket);
      perDayKm := availableKm / n as real;
      MulDivCancel(availableKm, n as real);
      bucket := SpreadMileage(d, perDayKm, bucket);
      bucket := Max(0.0, bucket);
    }
  }

  /** Stage 2: the per-day per-diem share and the pool it leaves. */
  method DietPass(d: array<Day>, rate: real, dd: int, b0: real) returns (perDayDiet: real, bucket: real)
    requires dd <= d.Length
    modifies d
    ensures perDayDiet == DietStage(rate, dd, b0).share
    ensures bucket == DietStage(rate, dd, b0).bucket
    ensures forall j :: 0 <= j < d.Length ==> d[j] == if j < dd then old(d[j]).(dieta := perDayDiet) else old(d[j])
  {
    perDayDiet := 0.0;
    bucket := b0;
    if dd > 0 {
      var totalReqDiet := rate * dd as real;
      var availableDiet := Min(totalReqDiet, bucket);
      perDayDiet := availableDiet / dd as real;
      MulDivCancel(availableDiet, dd as real);
      bucket := SpreadDiet(d, dd, perDayDiet, bucket);
      bucket := Max(0.0, bucket);
    }
  }

  /** Stage 1's loop: every day gets `share`, taken from the pool one day at a time. */
  method SpreadMileage(d: array<Day>, share: real, b0: real) returns (bucket: real)
    modifies d
    ensures bucket == b0 - d.Length as real * share
    ensures forall j :: 0 <= j < d.Length ==> d[j] == old(d[j]).(km := share)
  {
    bucket := b0;
    for i := 0 to d.Length
      invariant bucket == b0 - i as real * share
      invariant forall j :: 0 <= j < d.Length ==> d[j] == if j < i then old(d[j]).(km := share) else old(d[j])
    {
      d[i] := d[i].(km := share);
      StepDown(b0, i, share);
      bucket := bucket - share;
    }
  }

  /** Stage 2's loop: each of the first `dd` days gets `share`. */
  method SpreadDiet(d: array<Day>, dd: int, share: real, b0: real) returns (bucket: real)
    requires 0 <= dd <= d.Length
    modifies d
    ensures bucket == b0 - dd as real * share
    ensures forall j :: 0 <= j < d.Length ==> d[j] == if j < dd then old(d[j]).(dieta := share) else old(d[j])
  {
    bucket := b0;
    for i := 0 to dd
      invariant bucket == b0 - i as real * share
      invariant forall j :: 0 <= j < d.Length ==> d[j] == if j < i then old(d[j]).(dieta := share) else old(d[j])
    {
      d[i] := d[i].(dieta := share);
      StepDown(b0, i, share);
      bucket := bucket - share;
    }
  }

  /** Stage 4's loop: each day in turn takes `min(total, pool)`. */
  method TakeRentals(d: array<Day>, total: real, b0: real) returns (bucket: real)
    modifies d
    ensures bucket == GreedyLeft(total, b0, d.Length)
    ensures forall j :: 0 <= j < d.Length ==> d[j] == old(d[j]).(alquiler := GreedyShares(total, b0, d.Length)[j])
  {
    var n := d.Length;
    ghost var shares := GreedyShares(total, b0, n);
    bucket := b0;
    for i := 0 to n
      invariant GreedyShares(total, bucket, n - i) == shares[i..]
      invariant GreedyLeft(total, bucket, n - i) == GreedyLeft(total, b0, n)
      invariant forall j :: 0 <= j < n ==> d[j] == if j < i then old(d[j]).(alquiler := shares[j]) else old(d[j])
    {
      var alquilerDia := Min(total, bucket);
      assert shares[i..][1..] == shares[i + 1..];
      d[i] := d[i].(alquiler := alquilerDia);
      bucket := bucket - alquilerDia;
    }
  }

  lemma StepDown(b: real, i: int, x: real)
    ensures b - i as real * x - x == b - (i + 1) as real * x
  {
  }

  // ---------------------------------------------------------------------
  // Columns of the day records.
  // ---------------------------------------------------------------------

  function Caches(ds: seq<Day>): seq<real>
  {
    seq(|ds|, i requires 0 <= i < |ds| => ds[i].cache)
  }

  function Kms(ds: seq<Day>): seq<real>
  {
    seq(|ds|, i requires 0 <= i < |ds| => ds[i].km)
  }

  function Diets(ds: seq<Day>): seq<real>
  {
    seq(|ds|, i requires 0 <= i < |ds| => ds[i].dieta)
  }

  function Rents(ds: seq<Day>): seq<real>
  {
    seq(|ds|, i requires 0 <= i < |ds| => ds[i].alquiler)
  }

  /** Everything the days hold: wage, mileage, per-diem and rental. */
  function Allocated(ds: seq<Day>): real
  {
    Sum(Caches(ds)) + Sum(Kms(ds)) + Sum(Diets(ds)) + Sum(Rents(ds))
  }

  // ---------------------------------------------------------------------
  // Properties of the whole cascade.
  // ---------------------------------------------------------------------

  /** Every day's wage is at least 75; every day but the last is exactly 75,
      and only the last day receives the residual pool. */
  lemma WageFloor(gross: real, inp: Inputs)
    ensures forall i :: 0 <= i < |Allocate(gross, inp).days| ==> Allocate(gross, inp).days[i].cache >= WAGE_FLOOR
    ensures forall i :: 0 <= i < |Allocate(gross, inp).days| - 1 ==> Allocate(gross, inp).days[i].cache == WAGE_FLOOR
    ensures Allocate(gross, inp).days[DayCount(inp) - 1].cache ==
            WAGE_FLOOR + (if Run(gross, inp).residual > 0.0 then Run(gross, inp).residual else 0.0)
  {
  }

  /** At or above the floor the pool is non-negative after every stage and
      each stage takes from it exactly what it grants. */
  lemma PoolNonNegative(gross: real, inp: Inputs)
    requires gross >= Floor(inp)
    ensures Run(gross, inp).seed >= 0.0
    ensures Run(gross, inp).mileage.bucket == Run(gross, inp).seed - Run(gross, inp).mileage.granted >= 0.0
    ensures Run(gross, inp).diet.bucket == Run(gross, inp).mileage.bucket - Run(gross, inp).diet.granted >= 0.0
    ensures Run(gross, inp).expense.bucket == Run(gross, inp).diet.bucket - Run(gross, inp).expense.granted >= 0.0
    ensures Run(gross, inp).residual == Run(gross, inp).expense.bucket - Sum(Run(gross, inp).rentals) >= 0.0
  {
    RentalAccounts(gross, inp);
  }

  lemma RentalAccounts(gross: real, inp: Inputs)
    requires Run(gross, inp).expense.bucket >= 0.0
    ensures Run(gross, inp).residual >= 0.0
    ensures Run(gross, inp).residual == Run(gross, inp).expense.bucket - Sum(Run(gross, inp).rentals)
  {
    var t := Run(gross, inp);
    GreedyAccounts(inp.rentalTotal, t.expense.bucket, DayCount(inp));
    if inp.rentalTotal > 0.0 {
      GreedyShape(inp.rentalTotal, t.expense.bucket, DayCount(inp));
    } else {
      SumPrefixConst(t.rentals, 0, 0.0);
    }
  }

  /** At or above the floor the day records and the granted expenses hold
      the whole trial gross, no more and no less. */
  lemma Conservation(gross: real, inp: Inputs)
    requires gross >= Floor(inp)
    ensures Allocated(Allocate(gross, inp).days) + Allocate(gross, inp).expenses == gross
  {
    var t := Run(gross, inp);
    var ds := Allocate(gross, inp).days;
    PoolNonNegative(gross, inp);
    WageColumn(gross, inp);
    MileageColumn(gross, inp);
    DietColumn(gross, inp);
    RentalColumn(gross, inp);
    Accounting(gross, Floor(inp), t.seed, t.mileage.granted, t.mileage.bucket,
               t.diet.granted, t.diet.bucket, t.expense.granted, t.expense.bucket,
               Sum(t.rentals), t.residual,
               Sum(Caches(ds)), Sum(Kms(ds)), Sum(Diets(ds)), Sum(Rents(ds)));
  }

  /** The bookkeeping behind Conservation: each stage moves what it grants
      out of the pool. */
  lemma Accounting(gross: real, floor: real, seed: real, km: real, b1: real, diet: real, b2: real,
                   expense: real, b3: real, rent: real, residual: real,
                   wages: real, kms: real, diets: real, rents: real)
    requires seed == gross - floor
    requires b1 == seed - km && b2 == b1 - diet && b3 == b2 - expense && residual == b3 - rent
    requires wages == floor + residual && kms == km && diets == diet && rents == rent
    ensures wages + kms + diets + rents + expense == gross
  {
  }

  /** The wage column: 75 per day plus a non-negative residual. */
  lemma WageColumn(gross: real, inp: Inputs)
    requires Run(gross, inp).residual >= 0.0
    ensures Sum(Caches(Allocate(gross, inp).days)) == Floor(inp) + Run(gross, inp).residual
  {
    var n := DayCount(inp);
    var cs := Caches(Allocate(gross, inp).days);
    SumPrefixConst(cs[..n - 1], n - 1, WAGE_FLOOR);
    SumSnoc(cs);
  }

  lemma MileageColumn(gross: real, inp: Inputs)
    ensures Sum(Kms(Allocate(gross, inp).days)) == Run(gross, inp).mileage.granted
  {
    SumPrefixConst(Kms(Allocate(gross, inp).days), DayCount(inp), Run(gross, inp).mileage.share);
  }

  lemma DietColumn(gross: real, inp: Inputs)
    ensures Sum(Diets(Allocate(gross, inp).days)) == Run(gross, inp).diet.granted
  {
    DietSplit(gross, inp);
    DietColumnOf(Allocate(gross, inp).days, DietDayCount(inp), Run(gross, inp).diet);
  }

  /** The per-diem column over days whose first `dd` entries hold the share. */
  lemma DietColumnOf(days: seq<Day>, dd: int, diet: Split)
    requires dd <= |days|
    requires forall i :: 0 <= i < |days| ==> days[i].dieta == if i < dd then diet.share else 0.0
    requires dd > 0 ==> dd as real * diet.share == diet.granted
    requires dd <= 0 ==> diet.granted == 0.0
    ensures Sum(Diets(days)) == diet.granted
  {
    if dd > 0 {
      SumPrefixConst(Diets(days), dd, diet.share);
    } else {
      SumPrefixConst(Diets(days), 0, 0.0);
    }
  }

  lemma RentalColumn(gross: real, inp: Inputs)
    ensures Rents(Allocate(gross, inp).days) == Run(gross, inp).rentals
  {
  }

  /** Every day gets the same mileage share; it is the full
      `kilometraje_total · 0.2737` whenever the pool covers all days. */
  lemma MileageSplit(gross: real, inp: Inputs)
    ensures forall i :: 0 <= i < |Allocate(gross, inp).days| ==>
      Allocate(gross, inp).days[i].km == Run(gross, inp).mileage.share
    ensures inp.mileage <= 0.0 ==> Run(gross, inp).mileage.share == 0.0
    ensures inp.mileage > 0.0 && inp.mileage * MILEAGE_RATE * DayCount(inp) as real <= Run(gross, inp).seed ==>
      Run(gross, inp).mileage.share == inp.mileage * MILEAGE_RATE
  {
  }

  /** The first `min(dias_dieta, dias)` days get the same per-diem share,
      the full rate when the pool covers it; later days get nothing. */
  lemma DietSplit(gross: real, inp: Inputs)
    ensures forall i :: 0 <= i < |Allocate(gross, inp).days| ==>
      Allocate(gross, inp).days[i].dieta == (if i < DietDayCount(inp) then Run(gross, inp).diet.share else 0.0)
    ensures DietDayCount(inp) > 0 && inp.dietRate * DietDayCount(inp) as real <= Run(gross, inp).mileage.bucket ==>
      Run(gross, inp).diet.share == inp.dietRate
  {
  }

  /** The granted expenses are `min(requested, pool)` when both are
      positive and nothing otherwise. */
  lemma ExpenseGrant(gross: real, inp: Inputs)
    ensures Allocate(gross, inp).expenses ==
      (if inp.expenses > 0.0 && Run(gross, inp).diet.bucket > 0.0 then Min(inp.expenses, Run(gross, inp).diet.bucket) else 0.0)
  {
  }

  /** The greedy rental stage on the assembled days: at or above the floor
      each day gets between 0 and the rental total, the shares never increase
      from day to day, after the first partial share every later day gets
      nothing, and the days together get the smaller of the pool entering
      the stage and `dias · total_alquiler`. */
  lemma RentalAllocation(gross: real, inp: Inputs)
    requires gross >= Floor(inp) && inp.rentalTotal > 0.0
    ensures forall i :: 0 <= i < DayCount(inp) ==> 0.0 <= Allocate(gross, inp).days[i].alquiler <= inp.rentalTotal
    ensures forall i, j :: 0 <= i < j < DayCount(inp) ==>
      Allocate(gross, inp).days[j].alquiler <= Allocate(gross, inp).days[i].alquiler
    ensures forall i, j :: 0 <= i < j < DayCount(inp) && Allocate(gross, inp).days[i].alquiler < inp.rentalTotal ==>
      Allocate(gross, inp).days[j].alquiler == 0.0
    ensures Sum(Rents(Allocate(gross, inp).days)) ==
      Min(Run(gross, inp).expense.bucket, DayCount(inp) as real * inp.rentalTotal)
  {
    PoolNonNegative(gross, inp);
    GreedyShape(inp.rentalTotal, Run(gross, inp).expense.bucket, DayCount(inp));
    RentalColumn(gross, inp);
    RentalSum(gross, inp);
  }

  lemma RentalSum(gross: real, inp: Inputs)
    requires Run(gross, inp).expense.bucket >= 0.0 && inp.rentalTotal > 0.0
    ensures Sum(Run(gross, inp).rentals) == Min(Run(gross, inp).expense.bucket, DayCount(inp) as real * inp.rentalTotal)
  {
    RentalSharesSum(inp.rentalTotal, Run(gross, inp).expense.bucket, DayCount(inp));
  }

  lemma RentalSharesSum(total: real, b: real, n: nat)
    requires total > 0.0 && b >= 0.0
    ensures Sum(RentalShares(total, b, n)) == Min(b, n as real * total)
  {
    GreedySum(total, b, n);
  }

  /** At or above the floor, and for a non-negative per-diem rate, no day
      component and no expense grant is negative. */
  lemma ComponentsNonNegative(gross: real, inp: Inputs)
    requires gross >= Floor(inp) && inp.dietRate >= 0.0
    ensures forall i :: 0 <= i < DayCount(inp) ==>
      Allocate(gross, inp).days[i].km >= 0.0 && Allocate(gross, inp).days[i].dieta >= 0.0 &&
      Allocate(gross, inp).days[i].alquiler >= 0.0
    ensures Allocate(gross, inp).expenses >= 0.0
  {
    PoolNonNegative(gross, inp);
    var t := Run(gross, inp);
    if inp.rentalTotal > 0.0 {
      GreedyShape(inp.rentalTotal, t.expense.bucket, DayCount(inp));
    }
  }

  /** With no rental requested no day gets any rental. */
  lemma NoRentalRequested(gross: real, inp: Inputs)
    requires inp.rentalTotal <= 0.0
    ensures forall i :: 0 <= i < |Allocate(gross, inp).days| ==> Allocate(gross, inp).days[i].alquiler == 0.0
  {
  }
}
