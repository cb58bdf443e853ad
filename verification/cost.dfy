/** `calculateCost` and `estimateTokens`: linear pricing at per-1000-token
    rates, and a four-characters-per-token estimate rounded up. */
module Cost {
  import opened Catalog

  /** Price of an exchange, in exact rational arithmetic. */
  function CalculateCost(m: Model, inputTokens: nat, outputTokens: nat): (r: real)
    ensures m.pricing.inputRate >= 0.0 && m.pricing.outputRate >= 0.0 ==> r >= 0.0
  {
    (inputTokens as real) * m.pricing.inputRate / 1000.0 + (outputTokens as real) * m.pricing.outputRate / 1000.0
  }

  /** Nothing exchanged costs nothing. */
  lemma NoTokensNoCost(m: Model)
    ensures CalculateCost(m, 0, 0) == 0.0
  {
  }

  /** Cost is additive in the two token counts together... */
  lemma CostIsAdditive(m: Model, in1: nat, out1: nat, in2: nat, out2: nat)
    ensures CalculateCost(m, in1 + in2, out1 + out2) == CalculateCost(m, in1, out1) + CalculateCost(m, in2, out2)
  {
  }

  /** ...and the input and output parts are independent of each other. */
  lemma CostSplitsByDirection(m: Model, inputTokens: nat, outputTokens: nat)
    ensures CalculateCost(m, inputTokens, outputTokens)
      == CalculateCost(m, inputTokens, 0) + CalculateCost(m, 0, outputTokens)
    ensures CalculateCost(m, inputTokens, 0) == (inputTokens as real) * (m.pricing.inputRate / 1000.0)
    ensures CalculateCost(m, 0, outputTokens) == (outputTokens as real) * (m.pricing.outputRate / 1000.0)
  {
  }

  /** With non-negative rates, more tokens never cost less. */
  lemma CostMonotone(m: Model, in1: nat, out1: nat, in2: nat, out2: nat)
    requires m.pricing.inputRate >= 0.0 && m.pricing.outputRate >= 0.0
    requires in1 <= in2 && out1 <= out2
    ensures 0.0 <= CalculateCost(m, in1, out1) <= CalculateCost(m, in2, out2)
  {
    CostIsAdditive(m, in1, out1, in2 - in1, out2 - out1);
  }

  /** `Math.ceil(text.length / 4)`: the fewest tokens of four characters
      that cover the text. */
  function EstimateTokens(text: string): (n: nat)
    ensures 4 * n >= |text|
    ensures n == 0 || 4 * (n - 1) < |text|
  {
    (|text| + 3) / 4
  }

  /** A longer text is never estimated at fewer tokens. */
  lemma EstimateMonotone(a: string, b: string)
    requires |a| <= |b|
    ensures EstimateTokens(a) <= EstimateTokens(b)
  {
  }

  lemma EmptyTextNoTokens()
    ensures EstimateTokens("") == 0
  {
  }
}
