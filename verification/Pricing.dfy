/** The price of a call, its rounding to eight places, and how far a Run's rounded total can be
    from the exact price. Decimal arithmetic is taken as exact before the rounding. */
module Pricing {
  import opened Values
  import opened Metering
  import opened Records
  import opened Reducer
  import opened Billing

  /** Rates per million tokens. */
  datatype ModelPrice = ModelPrice(
    input: real, output: real, cacheRead: real, cacheWrite: real, cacheWrite1h: Option<real>, currency: string)

  type PriceTable = string -> Option<ModelPrice>

  const PER_MILLION := 1000000.0
  const UNITS := 100000000.0   // one unit is the eighth decimal place

  // ---------------------------------------------------------------- rounding

  /** Half to even, to a whole number. */
  function RoundHalfEven(x: real): int {
    var below := x.Floor;
    var over := x - below as real;
    if over < 0.5 then below
    else if over > 0.5 then below + 1
    else if below % 2 == 0 then below else below + 1
  }

  /** Eight decimal places. */
  function Quantize(amount: real): real {
    RoundHalfEven(amount * UNITS) as real / UNITS
  }

  function Abs(x: real): real {
    if x < 0.0 then -x else x
  }

  /** Rounding moves a number by at most one half, and is the nearest whole number. */
  lemma RoundingNear(x: real)
    ensures Abs(RoundHalfEven(x) as real - x) <= 0.5
    ensures Abs(RoundHalfEven(x) as real - x) == 0.5 ==> RoundHalfEven(x) % 2 == 0
  {
  }

  /** Whole numbers less than `d + 1` apart are at most `d` apart. */
  lemma WholeDistance(a: int, b: int, d: int)
    requires Abs(a as real - b as real) < d as real + 1.0
    ensures Abs(a as real - b as real) <= d as real
  {
    assert (a - b) as real == a as real - b as real;
    assert (b - a) as real == b as real - a as real;
    assert -(d + 1) < a - b < d + 1;
  }

  // ------------------------------------------------------------------- price

  datatype Amounts = Amounts(input: real, output: real, cacheRead: real, cacheWrite: real)
  {
    function Total(): real {
      input + output + cacheRead + cacheWrite
    }
  }

  /** The four categories before rounding. Writes held for an hour have their own rate when the
      table gives one; reasoning is part of the output already. */
  function Exact(u: Usage, p: ModelPrice): Amounts {
    var longRate := if p.cacheWrite1h.Some? then p.cacheWrite1h.value else p.cacheWrite;
    Amounts(u.input as real * p.input / PER_MILLION,
            u.output as real * p.output / PER_MILLION,
            u.cacheRead as real * p.cacheRead / PER_MILLION,
            ((u.cacheWrite - u.cacheWrite1h) as real * p.cacheWrite + u.cacheWrite1h as real * longRate)
            / PER_MILLION)
  }

  /** `compute_cost`: a model without a known price has no cost. */
  function ComputeCost(model: string, u: Usage, table: PriceTable): Option<Cost> {
    var price := table(model);
    if price.None? then None
    else
      var a := Exact(u, price.value);
      Some(Cost(Quantize(a.Total()), price.value.currency, model, Computed,
                Some(Quantize(a.input)), Some(Quantize(a.output)),
                Some(Quantize(a.cacheRead)), Some(Quantize(a.cacheWrite))))
  }

  // ---------------------------------------------------- each kind of token

  /** The kinds of token that are priced; writes are held for five minutes or for an hour. */
  datatype TokenKind = InputTokens | OutputTokens | CacheReads | ShortWrites | LongWrites

  /** So many tokens of one kind and no others. */
  function Only(k: TokenKind, n: nat): Usage {
    match k
    case InputTokens => Usage(n, 0, 0, 0, 0, 0)
    case OutputTokens => Usage(0, n, 0, 0, 0, 0)
    case CacheReads => Usage(0, 0, n, 0, 0, 0)
    case ShortWrites => Usage(0, 0, 0, n, 0, 0)
    case LongWrites => Usage(0, 0, 0, n, n, 0)
  }

  /** The rate of a kind: an hour's writes fall back on the five-minute rate. */
  function RateOf(k: TokenKind, p: ModelPrice): real {
    match k
    case InputTokens => p.input
    case OutputTokens => p.output
    case CacheReads => p.cacheRead
    case ShortWrites => p.cacheWrite
    case LongWrites => if p.cacheWrite1h == None then p.cacheWrite else p.cacheWrite1h.value
  }

  function CategoryFor(k: TokenKind): Category {
    match k
    case InputTokens => Input
    case OutputTokens => Output
    case CacheReads => CacheRead
    case ShortWrites => CacheWrite
    case LongWrites => CacheWrite
  }

  /** A million tokens of one kind cost its rate, in its own category and in the total, and
      nothing in any other. */
  lemma MillionCosts(model: string, k: TokenKind, table: PriceTable)
    requires table(model).Some?
    ensures ComputeCost(model, Only(k, 1000000), table).Some?
    ensures var c, p := ComputeCost(model, Only(k, 1000000), table).value, table(model).value;
            && c.amount == Quantize(RateOf(k, p)) && c.currency == p.currency
            && c.model == model && c.source == Computed
            && forall other: Category ::
                 AmountIn(c, other) == Some(if other == CategoryFor(k) then Quantize(RateOf(k, p)) else 0.0)
  {
    NothingCosts();
    MillionExact(k, table(model).value);
    OneSlot(RateOf(k, table(model).value), CategoryFor(k));
  }

  /** An amount in one category and nothing in the others. */
  function InSlot(rate: real, k: Category): Amounts {
    Amounts(if k == Input then rate else 0.0, if k == Output then rate else 0.0,
            if k == CacheRead then rate else 0.0, if k == CacheWrite then rate else 0.0)
  }

  lemma OneSlot(rate: real, k: Category)
    ensures InSlot(rate, k).Total() == rate
  {
  }

  lemma MillionExact(k: TokenKind, p: ModelPrice)
    ensures Exact(Only(k, 1000000), p) == InSlot(RateOf(k, p), CategoryFor(k))
  {
    MillionTimes(p.input);
    MillionTimes(p.output);
    MillionTimes(p.cacheRead);
    MillionTimes(RateOf(ShortWrites, p));
    MillionTimes(RateOf(LongWrites, p));
  }

  lemma MillionTimes(rate: real)
    ensures (1000000 as real) * rate / PER_MILLION == rate
    ensures (0 as real) * rate / PER_MILLION == 0.0
  {
  }

  lemma NothingCosts()
    ensures Quantize(0.0) == 0.0
  {
    assert (0.0 as real).Floor == 0;
  }

  /** A price is a whole number of hundred-millionths, the nearest there is. */
  lemma QuantizeIs(amount: real)
    ensures exists n: int :: IsUnits(Quantize(amount), n)
    ensures -0.000000005 <= Quantize(amount) - amount <= 0.000000005
  {
    QuantizeNear(amount);
    assert IsUnits(Quantize(amount), RoundHalfEven(amount * UNITS));
  }

  predicate IsUnits(amount: real, n: int) {
    amount == n as real / 100000000.0
  }

  /** Before rounding each category adds up over its own tokens. */
  lemma ExactAdds(u: Usage, v: Usage, p: ModelPrice)
    ensures Exact(u.Plus(v), p).input == Exact(u, p).input + Exact(v, p).input
    ensures Exact(u.Plus(v), p).output == Exact(u, p).output + Exact(v, p).output
    ensures Exact(u.Plus(v), p).cacheRead == Exact(u, p).cacheRead + Exact(v, p).cacheRead
    ensures Exact(u.Plus(v), p).cacheWrite == Exact(u, p).cacheWrite + Exact(v, p).cacheWrite
  {
  }

  /** And reads no tokens and no rate but its own; reasoning is never counted. */
  lemma ExactReads(u: Usage, v: Usage, p: ModelPrice, q: ModelPrice)
    ensures u.input == v.input && p.input == q.input ==> Exact(u, p).input == Exact(v, q).input
    ensures u.output == v.output && p.output == q.output ==> Exact(u, p).output == Exact(v, q).output
    ensures u.cacheRead == v.cacheRead && p.cacheRead == q.cacheRead ==> Exact(u, p).cacheRead == Exact(v, q).cacheRead
    ensures u.cacheWrite == v.cacheWrite && u.cacheWrite1h == v.cacheWrite1h
            && p.cacheWrite == q.cacheWrite && p.cacheWrite1h == q.cacheWrite1h ==>
              Exact(u, p).cacheWrite == Exact(v, q).cacheWrite
  {
  }

  /** A model the table has no price for has no cost. */
  lemma Unpriced(model: string, u: Usage, table: PriceTable)
    ensures ComputeCost(model, u, table).None? <==> table(model).None?
  {
  }

  /** The total is rounded once and the categories each on its own, so they need not add up; in
      whole units they are never more than two apart. */
  lemma CategoriesNearTotal(model: string, u: Usage, table: PriceTable)
    requires table(model).Some?
    ensures var c := ComputeCost(model, u, table).value;
            Abs(c.amount - (c.inputAmount.value + c.outputAmount.value
                            + c.cacheReadAmount.value + c.cacheWriteAmount.value))
            <= 2.0 / UNITS
  {
    var a := Exact(u, table(model).value);
    RoundedSum(a.input, a.output, a.cacheRead, a.cacheWrite);
  }

  lemma RoundedSum(a: real, b: real, c: real, d: real)
    ensures Abs(Quantize(a + b + c + d) - (Quantize(a) + Quantize(b) + Quantize(c) + Quantize(d))) <= 2.0 / UNITS
  {
    var w, x, y, z := a * UNITS, b * UNITS, c * UNITS, d * UNITS;
    assert (a + b + c + d) * UNITS == w + x + y + z;
    RoundedWhole(w, x, y, z);
    var total := RoundHalfEven(w + x + y + z);
    var parts := RoundHalfEven(w) + RoundHalfEven(x) + RoundHalfEven(y) + RoundHalfEven(z);
    Scaled(total as real, parts as real, 2.0);
    assert Quantize(a) + Quantize(b) + Quantize(c) + Quantize(d) == parts as real / UNITS;
  }

  lemma RoundedWhole(w: real, x: real, y: real, z: real)
    ensures Abs(RoundHalfEven(w + x + y + z) as real
                - (RoundHalfEven(w) + RoundHalfEven(x) + RoundHalfEven(y) + RoundHalfEven(z)) as real) <= 2.0
  {
    RoundingNear(w);
    RoundingNear(x);
    RoundingNear(y);
    RoundingNear(z);
    RoundingNear(w + x + y + z);
    FiveRoundings(RoundHalfEven(w + x + y + z), RoundHalfEven(w), RoundHalfEven(x), RoundHalfEven(y), RoundHalfEven(z),
                  w, x, y, z);
  }

  lemma FiveRoundings(total: int, p: int, q: int, r: int, s: int, w: real, x: real, y: real, z: real)
    requires Abs(p as real - w) <= 0.5 && Abs(q as real - x) <= 0.5
    requires Abs(r as real - y) <= 0.5 && Abs(s as real - z) <= 0.5
    requires Abs(total as real - (w + x + y + z)) <= 0.5
    ensures Abs(total as real - (p + q + r + s) as real) <= 2.0
  {
    assert (p + q + r + s) as real == p as real + q as real + r as real + s as real;
    WholeDistance(total, p + q + r + s, 2);
  }

  lemma Scaled(a: real, b: real, d: real)
    requires Abs(a - b) <= d
    ensures Abs(a / UNITS - b / UNITS) <= d / UNITS
  {
    assert a / UNITS - b / UNITS == (a - b) / UNITS;
  }

  const ONE_OF_EACH := Usage(1, 1, 1, 1, 0, 0)
  const HALF_UNIT_RATES := ModelPrice(0.005, 0.005, 0.005, 0.005, None, "USD")

  /** Two units is reached: one token of each kind at half a unit, where each category rounds to
      nothing and the total does not. */
  lemma TwoUnitsReached(model: string, table: PriceTable)
    requires table(model) == Some(HALF_UNIT_RATES)
    ensures var c := ComputeCost(model, ONE_OF_EACH, table).value;
            c.amount - (c.inputAmount.value + c.outputAmount.value + c.cacheReadAmount.value + c.cacheWriteAmount.value)
            == 2.0 / UNITS
  {
    var a := Exact(ONE_OF_EACH, HALF_UNIT_RATES);
    assert a.input * UNITS == 0.5 && a.output * UNITS == 0.5;
    assert a.cacheRead * UNITS == 0.5 && a.cacheWrite * UNITS == 0.5;
    assert a.Total() * UNITS == 2.0;
    HalvesVanish();
  }

  lemma HalvesVanish()
    ensures RoundHalfEven(0.5) == 0 && RoundHalfEven(2.0) == 2
  {
    assert (0.5 as real).Floor == 0;
    assert (2.0 as real).Floor == 2;
  }

  // ------------------------------------------------------------ a Run's total

  /** One computed charge: the model called, and what was recorded. */
  datatype Priced = Priced(model: string, charge: Charge)

  /** Every charge carries the cost computed for it. */
  predicate AllComputed(priced: seq<Priced>, table: PriceTable) {
    forall i :: 0 <= i < |priced| ==>
      priced[i].charge.cost == ComputeCost(priced[i].model, priced[i].charge.usage, table)
  }

  function ChargesOf(priced: seq<Priced>): seq<Charge> {
    if priced == [] then [] else ChargesOf(Init(priced)) + [Last(priced).charge]
  }

  /** The exact price of everything the table knows a rate for. */
  function ExactTotal(priced: seq<Priced>, table: PriceTable): real {
    if priced == [] then 0.0
    else
      var price := table(Last(priced).model);
      ExactTotal(Init(priced), table)
      + (if price.Some? then Exact(Last(priced).charge.usage, price.value).Total() else 0.0)
  }

  lemma QuantizeNear(amount: real)
    ensures Abs(Quantize(amount) - amount) <= 0.5 / UNITS
  {
    RoundingNear(amount * UNITS);
    Scaled(RoundHalfEven(amount * UNITS) as real, amount * UNITS, 0.5);
    assert amount * UNITS / UNITS == amount;
  }

  /** No further apart than half a unit for each of `n` roundings. */
  predicate Near(x: real, y: real, n: nat) {
    Abs(x - y) <= n as real * (0.5 / UNITS)
  }

  lemma OneMore(sum: real, exact: real, amount: real, price: real, n: nat)
    requires Near(sum, exact, n) && Abs(amount - price) <= 0.5 / UNITS
    ensures Near(sum + amount, exact + price, n + 1)
  {
    assert (n + 1) as real * (0.5 / UNITS) == n as real * (0.5 / UNITS) + 0.5 / UNITS;
  }

  lemma SumAmountsSnoc(costs: seq<Cost>, c: Cost)
    ensures SumAmounts(costs + [c]) == SumAmounts(costs) + c.amount
  {
    assert Init(costs + [c]) == costs && Last(costs + [c]) == c;
  }

  /** Half a unit for each priced call: rounding errors add up and do no worse. */
  lemma {:induction false} SumNear(priced: seq<Priced>, table: PriceTable)
    requires AllComputed(priced, table)
    ensures Near(SumAmounts(Costs(ChargesOf(priced))), ExactTotal(priced, table), |Costs(ChargesOf(priced))|)
  {
    if priced != [] {
      var init, last := Init(priced), Last(priced);
      assert forall i :: 0 <= i < |init| ==> init[i] == priced[i];
      SumNear(init, table);
      SumsSnoc(ChargesOf(init), last.charge);
      assert last.charge.cost == ComputeCost(last.model, last.charge.usage, table);
      if table(last.model).Some? {
        OnePriced(SumAmounts(Costs(ChargesOf(init))), ExactTotal(init, table), Costs(ChargesOf(init)), last, table);
      }
    }
  }

  lemma OnePriced(sum: real, exactSoFar: real, costs: seq<Cost>, p: Priced, table: PriceTable)
    requires sum == SumAmounts(costs) && Near(sum, exactSoFar, |costs|)
    requires table(p.model).Some? && p.charge.cost == ComputeCost(p.model, p.charge.usage, table)
    ensures Near(SumAmounts(costs + [p.charge.cost.value]),
                 exactSoFar + Exact(p.charge.usage, table(p.model).value).Total(), |costs| + 1)
  {
    var exact := Exact(p.charge.usage, table(p.model).value).Total();
    QuantizeNear(exact);
    SumAmountsSnoc(costs, p.charge.cost.value);
    OneMore(sum, exactSoFar, Quantize(exact), exact, |costs|);
  }

  /** A folded Run whose calls were priced by one table: its cost is within half a unit per
      priced call of the exact price, and it has a cost exactly when some call was priced. */
  lemma RunNearExact(runId: RunId, scope: Scope, log: seq<Record>, priced: seq<Priced>, table: PriceTable)
    requires Accepts(Fresh(runId, scope), log)
    requires Charges(log) == ChargesOf(priced) && AllComputed(priced, table)
    ensures var cost, n := After(Fresh(runId, scope), log).state.bill.cost, |Costs(Charges(log))|;
            && (cost.Some? <==> n > 0)
            && (cost.Some? ==> Near(cost.value.amount, ExactTotal(priced, table), n))
  {
    CostMeans(runId, scope, log);
    SumNear(priced, table);
  }

  lemma CostMeans(runId: RunId, scope: Scope, log: seq<Record>)
    requires Accepts(Fresh(runId, scope), log)
    ensures var cost, costs := After(Fresh(runId, scope), log).state.bill.cost, Costs(Charges(log));
            && (cost.Some? <==> |costs| > 0)
            && (cost.Some? ==> cost.value.amount == SumAmounts(costs))
  {
    Conserved(runId, scope, log);
  }
}
