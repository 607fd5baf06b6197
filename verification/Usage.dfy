/** Token counters and money: `Usage.__add__`, `Cost.__add__`. */
module Metering {
  import opened Values

  datatype Usage = Usage(
    input: nat, output: nat, cacheRead: nat, cacheWrite: nat, cacheWrite1h: nat, reasoning: nat)
  {
    /** The one-hour counter is a subset of the write counter. */
    predicate Valid() {
      cacheWrite1h <= cacheWrite
    }

    function Plus(other: Usage): Usage {
      Usage(input + other.input, output + other.output, cacheRead + other.cacheRead,
            cacheWrite + other.cacheWrite, cacheWrite1h + other.cacheWrite1h,
            reasoning + other.reasoning)
    }
  }

  const NO_USAGE := Usage(0, 0, 0, 0, 0, 0)

  datatype CostSource = Computed | Provider | Mixed

  datatype Cost = Cost(
    amount: real, currency: string, model: string, source: CostSource,
    inputAmount: Option<real>, outputAmount: Option<real>,
    cacheReadAmount: Option<real>, cacheWriteAmount: Option<real>)
  {
    /** Adding two currencies raises in the source; callers must check first. */
    function Plus(other: Cost): Cost
      requires currency == other.currency
    {
      Cost(amount + other.amount, currency,
           if model == other.model then model else "<mixed>",
           if source == other.source then source else Mixed,
           AddOptional(inputAmount, other.inputAmount),
           AddOptional(outputAmount, other.outputAmount),
           AddOptional(cacheReadAmount, other.cacheReadAmount),
           AddOptional(cacheWriteAmount, other.cacheWriteAmount))
    }
  }

  /** A category is added only when both operands report it. */
  function AddOptional(left: Option<real>, right: Option<real>): Option<real> {
    if left.None? || right.None? then None else Some(left.value + right.value)
  }
}
