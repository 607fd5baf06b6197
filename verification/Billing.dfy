/** Tokens and money: the fold's running totals against the calls the log records. */
module Billing {
  import opened Values
  import opened Metering
  import opened Records
  import opened Reducer

  /** One call that spent something: a turn's model call, or a compaction's. */
  datatype Charge = Charge(usage: Usage, reported: bool, cost: Option<Cost>)

  function ChargeOf(b: Body): Option<Charge> {
    match b
    case ModelCallFinished(_, _, usage, reported, cost, _, _) => Some(Charge(usage, reported, cost))
    case CompactionApplied(_, _, _, usage, reported, cost) => Some(Charge(usage, reported, cost))
    case _ => None
  }

  function Charges(log: seq<Record>): seq<Charge> {
    if log == [] then []
    else
      var c := ChargeOf(Last(log).body);
      if c.Some? then Charges(Init(log)) + [c.value] else Charges(Init(log))
  }

  function Costs(charges: seq<Charge>): seq<Cost> {
    if charges == [] then []
    else if Last(charges).cost.Some? then Costs(Init(charges)) + [Last(charges).cost.value]
    else Costs(Init(charges))
  }

  function SumUsage(charges: seq<Charge>): Usage {
    if charges == [] then NO_USAGE else SumUsage(Init(charges)).Plus(Last(charges).usage)
  }

  function SumAmounts(costs: seq<Cost>): real {
    if costs == [] then 0.0 else SumAmounts(Init(costs)) + Last(costs).amount
  }

  function Unreported(charges: seq<Charge>): nat {
    if charges == [] then 0 else Unreported(Init(charges)) + (if Last(charges).reported then 0 else 1)
  }

  function FromProvider(costs: seq<Cost>): nat {
    if costs == [] then 0 else FromProvider(Init(costs)) + (if Last(costs).source == Provider then 1 else 0)
  }

  /** The four categories a cost may report. */
  datatype Category = Input | Output | CacheRead | CacheWrite

  function AmountIn(c: Cost, k: Category): Option<real> {
    match k
    case Input => c.inputAmount
    case Output => c.outputAmount
    case CacheRead => c.cacheReadAmount
    case CacheWrite => c.cacheWriteAmount
  }

  /** What the costs that report a category report of it. */
  function SumIn(costs: seq<Cost>, k: Category): real {
    if costs == [] then 0.0
    else SumIn(Init(costs), k) + (if AmountIn(Last(costs), k).Some? then AmountIn(Last(costs), k).value else 0.0)
  }

  /** A category's total is known exactly when every cost reports it, and is then their sum. */
  predicate CategoryOf(total: Option<real>, costs: seq<Cost>, k: Category) {
    && (total.Some? <==> forall i :: 0 <= i < |costs| ==> AmountIn(costs[i], k).Some?)
    && (total.Some? ==> total.value == SumIn(costs, k))
  }

  /** The costs' one source, or else that they are mixed. */
  predicate SourceOf(source: CostSource, costs: seq<Cost>)
    requires costs != []
  {
    && (source == costs[0].source || source == Mixed)
    && (source != Mixed ==> forall i :: 0 <= i < |costs| ==> costs[i].source == source)
    && ((forall i :: 0 <= i < |costs| ==> costs[i].source == costs[0].source) ==> source == costs[0].source)
  }

  /** The costs' one model, or else that they are of several. */
  predicate ModelOf(model: string, costs: seq<Cost>)
    requires costs != []
  {
    if forall i :: 0 <= i < |costs| ==> costs[i].model == costs[0].model then model == costs[0].model
    else model == "<mixed>"
  }

  /** One total standing for several costs of one currency. */
  ghost predicate TotalOf(total: Option<Cost>, costs: seq<Cost>) {
    if costs == [] then total.None?
    else
      && total.Some?
      && total.value.amount == SumAmounts(costs)
      && (forall i :: 0 <= i < |costs| ==> costs[i].currency == total.value.currency)
      && SourceOf(total.value.source, costs)
      && ModelOf(total.value.model, costs)
      && forall k: Category :: CategoryOf(AmountIn(total.value, k), costs, k)
  }

  /** How many records of each kind that has a counter. */
  function FinishedCalls(log: seq<Record>): nat {
    if log == [] then 0 else FinishedCalls(Init(log)) + (if Last(log).body.ModelCallFinished? then 1 else 0)
  }

  function Compactions(log: seq<Record>): nat {
    if log == [] then 0 else Compactions(Init(log)) + (if Last(log).body.CompactionApplied? then 1 else 0)
  }

  function FailedCalls(log: seq<Record>): nat {
    if log == [] then 0 else FailedCalls(Init(log)) + (if Last(log).body.ModelCallFailed? then 1 else 0)
  }

  ghost predicate BillMeans(b: Bill, charges: seq<Charge>) {
    && b.usage == SumUsage(charges)
    && b.unreportedUsageCalls == Unreported(charges)
    && TotalOf(b.cost, Costs(charges))
    && b.providerReportedCosts == FromProvider(Costs(charges))
    && |Costs(charges)| + b.unpricedModelCalls == |charges|
  }

  lemma {:induction false} SourceSnoc(costs: seq<Cost>, c: Cost, source: CostSource)
    requires costs != [] ==> SourceOf(source, costs)
    requires costs == [] ==> source == c.source
    ensures SourceOf(if source == c.source then source else Mixed, costs + [c])
  {
    var all := costs + [c];
    assert all[|costs|] == c;
    assert forall i :: 0 <= i < |costs| ==> all[i] == costs[i];
  }

  lemma {:induction false} AmountSnoc(costs: seq<Cost>, c: Cost)
    ensures SumAmounts(costs + [c]) == SumAmounts(costs) + c.amount
    ensures forall i :: 0 <= i < |costs + [c]| ==> (costs + [c])[i] == if i < |costs| then costs[i] else c
  {
    assert Init(costs + [c]) == costs && Last(costs + [c]) == c;
  }

  lemma {:induction false} TotalSnoc(total: Option<Cost>, costs: seq<Cost>, c: Cost)
    requires TotalOf(total, costs) && (total.Some? ==> total.value.currency == c.currency)
    ensures TotalOf(Some(if total.Some? then total.value.Plus(c) else c), costs + [c])
  {
    var next := if total.Some? then total.value.Plus(c) else c;
    AmountSnoc(costs, c);
    SourceSnoc(costs, c, if total.Some? then total.value.source else c.source);
    ModelSnoc(costs, c, if total.Some? then total.value.model else c.model);
    forall k: Category ensures CategoryOf(AmountIn(next, k), costs + [c], k) {
      CategorySnoc(if total.Some? then AmountIn(total.value, k) else Some(0.0), costs, c, k);
    }
  }

  lemma {:induction false} ModelSnoc(costs: seq<Cost>, c: Cost, model: string)
    requires costs != [] ==> ModelOf(model, costs)
    requires costs == [] ==> model == c.model
    ensures ModelOf(if model == c.model then model else "<mixed>", costs + [c])
  {
    var all := costs + [c];
    assert all[|costs|] == c;
    assert forall i :: 0 <= i < |costs| ==> all[i] == costs[i];
    if costs != [] {
      assert all[0] == costs[0];
      if forall i :: 0 <= i < |all| ==> all[i].model == all[0].model {
        assert c.model == costs[0].model;
      }
    }
  }

  lemma CategorySnoc(total: Option<real>, costs: seq<Cost>, c: Cost, k: Category)
    requires CategoryOf(total, costs, k)
    ensures CategoryOf(AddOptional(total, AmountIn(c, k)), costs + [c], k)
  {
    var all := costs + [c];
    assert Init(all) == costs && Last(all) == c;
    assert all[|costs|] == c;
    assert forall i :: 0 <= i < |costs| ==> all[i] == costs[i];
  }

  lemma SumsSnoc(charges: seq<Charge>, c: Charge)
    ensures SumUsage(charges + [c]) == SumUsage(charges).Plus(c.usage)
    ensures Unreported(charges + [c]) == Unreported(charges) + (if c.reported then 0 else 1)
    ensures Costs(charges + [c]) == if c.cost.Some? then Costs(charges) + [c.cost.value] else Costs(charges)
  {
    assert Init(charges + [c]) == charges && Last(charges + [c]) == c;
  }

  lemma ProviderSnoc(costs: seq<Cost>, c: Cost)
    ensures FromProvider(costs + [c]) == FromProvider(costs) + (if c.source == Provider then 1 else 0)
  {
    assert Init(costs + [c]) == costs && Last(costs + [c]) == c;
  }

  lemma ChargedCost(b: Bill, costs: seq<Cost>, c: Charge)
    requires TotalOf(b.cost, costs) && CheckCost(b, c.cost).None?
    ensures TotalOf(Charged(b, c.usage, c.reported, c.cost).cost,
                    if c.cost.Some? then costs + [c.cost.value] else costs)
  {
    if c.cost.Some? {
      TotalSnoc(b.cost, costs, c.cost.value);
    }
  }

  lemma ChargedCounts(b: Bill, costs: seq<Cost>, c: Charge)
    requires b.providerReportedCosts == FromProvider(costs) && CheckCost(b, c.cost).None?
    ensures var b' := Charged(b, c.usage, c.reported, c.cost);
            && b'.providerReportedCosts == FromProvider(if c.cost.Some? then costs + [c.cost.value] else costs)
            && b'.unpricedModelCalls == b.unpricedModelCalls + (if c.cost.Some? then 0 else 1)
  {
    if c.cost.Some? {
      ProviderSnoc(costs, c.cost.value);
    }
  }

  lemma ChargedMeans(b: Bill, charges: seq<Charge>, c: Charge)
    requires BillMeans(b, charges) && CheckCost(b, c.cost).None?
    ensures BillMeans(Charged(b, c.usage, c.reported, c.cost), charges + [c])
  {
    SumsSnoc(charges, c);
    ChargedCost(b, Costs(charges), c);
    ChargedCounts(b, Costs(charges), c);
  }

  /** The bill after one record. */
  lemma BillEffect(f: Fold, r: Record)
    requires Step(f, r).Accepted?
    ensures var b, b', c := f.state.bill, Step(f, r).value.state.bill, ChargeOf(r.body);
            && (c.None? ==>
                  b' == b.(failedModelCalls := b'.failedModelCalls,
                           transientRetriesUsed := b'.transientRetriesUsed))
            && (c.Some? ==>
                  && CheckCost(b, c.value.cost).None?
                  && b' == Charged(b, c.value.usage, c.value.reported, c.value.cost).(
                             modelCalls := b'.modelCalls, lastPromptTokens := b'.lastPromptTokens,
                             compactionCalls := b'.compactionCalls)
                  && b'.failedModelCalls == b.failedModelCalls)
            && b'.modelCalls == b.modelCalls + (if r.body.ModelCallFinished? then 1 else 0)
            && b'.compactionCalls == b.compactionCalls + (if r.body.CompactionApplied? then 1 else 0)
            && b'.failedModelCalls == b.failedModelCalls + (if r.body.ModelCallFailed? then 1 else 0)
  {
  }

  /** The counters of a usage. */
  datatype Counter = Uncached | Written | Read | Stored | StoredLong | Thought

  function CountIn(u: Usage, k: Counter): nat {
    match k
    case Uncached => u.input
    case Written => u.output
    case Read => u.cacheRead
    case Stored => u.cacheWrite
    case StoredLong => u.cacheWrite1h
    case Thought => u.reasoning
  }

  function SumCounts(charges: seq<Charge>, k: Counter): nat {
    if charges == [] then 0 else SumCounts(Init(charges), k) + CountIn(Last(charges).usage, k)
  }

  /** Each counter of the sum is the sum of that counter. */
  lemma {:induction false} CountersAddUp(charges: seq<Charge>, k: Counter)
    ensures CountIn(SumUsage(charges), k) == SumCounts(charges, k)
  {
    if charges != [] {
      CountersAddUp(Init(charges), k);
    }
  }

  /** In every accepted fold the usage is the sum over the finished model calls and the
      compactions, every such call is priced or counted as unpriced, and the cost is None
      exactly when nothing was priced and the one-currency sum otherwise. */
  lemma {:induction false} Conserved(runId: RunId, scope: Scope, log: seq<Record>)
    requires Accepts(Fresh(runId, scope), log)
    ensures var b := After(Fresh(runId, scope), log).state.bill;
            && BillMeans(b, Charges(log))
            && b.modelCalls == FinishedCalls(log)
            && b.compactionCalls == Compactions(log)
            && b.failedModelCalls == FailedCalls(log)
            && b.modelCalls + b.compactionCalls == |Charges(log)|
  {
    if log != [] {
      var start := Fresh(runId, scope);
      RunSnoc(start, log);
      Conserved(runId, scope, Init(log));
      BillEffect(After(start, Init(log)), Last(log));
      var c := ChargeOf(Last(log).body);
      if c.Some? {
        ChargedMeans(After(start, Init(log)).state.bill, Charges(Init(log)), c.value);
      }
    }
  }

  /** Adding valid counters gives valid counters, so no total can fail its own validator. */
  lemma {:induction false} TotalsStayValid(charges: seq<Charge>)
    requires forall i :: 0 <= i < |charges| ==> charges[i].usage.Valid()
    ensures SumUsage(charges).Valid()
  {
    if charges != [] {
      TotalsStayValid(Init(charges));
    }
  }
}
