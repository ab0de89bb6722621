/** Prices, token counts and the cost of one call. */
module Billing {
  import opened Ledger

  datatype Tokens = Tokens(input: int, output: int, cacheRead: int, cacheWrite: int)

  datatype PriceSnapshot = PriceSnapshot(
    inputPer1K: Money,
    outputPer1K: Money,
    cacheReadPer1K: Money,
    cacheWritePer1K: Money,
    perRequest: Money,
    rate: Money)

  datatype SettlePayload = SettlePayload(requestId: string, user: int, tokens: Tokens, snapshot: PriceSnapshot)

  datatype UsagePayload = UsagePayload(
    requestId: string, user: int, tokens: Tokens, totalCost: Money, snapshot: PriceSnapshot,
    stream: bool, statusCode: int, errorCode: string)

  function Item(per1K: Money, count: int): Money {
    per1K * (count as real) / 1000.0
  }

  /** A rate of zero stands for "not set" and counts as one. */
  function ComputeCost(p: PriceSnapshot, t: Tokens, perRequest: bool): Money {
    var factor := if p.rate == 0.0 then 1.0 else p.rate;
    var cost := (Item(p.inputPer1K, t.input) + Item(p.outputPer1K, t.output)
                 + Item(p.cacheReadPer1K, t.cacheRead) + Item(p.cacheWritePer1K, t.cacheWrite)) * factor;
    if perRequest then cost + p.perRequest else cost
  }

  predicate NonNegative(p: PriceSnapshot, t: Tokens) {
    && p.inputPer1K >= 0.0 && p.outputPer1K >= 0.0 && p.cacheReadPer1K >= 0.0 && p.cacheWritePer1K >= 0.0 &&
        p.rate >= 0.0
    && t.input >= 0 && t.output >= 0 && t.cacheRead >= 0 && t.cacheWrite >= 0
  }

  lemma ItemSign(per1K: Money, count: int)
    requires per1K >= 0.0 && count >= 0
    ensures Item(per1K, count) >= 0.0
    ensures per1K > 0.0 && count > 0 ==> Item(per1K, count) > 0.0
  {
  }

  /** Honest prices and counts never produce a negative settlement, and any priced input token is charged. */
  lemma CostSign(p: PriceSnapshot, t: Tokens)
    requires NonNegative(p, t)
    ensures ComputeCost(p, t, false) >= 0.0
    ensures p.inputPer1K > 0.0 && t.input > 0 ==> ComputeCost(p, t, false) > 0.0
  {
    ItemSign(p.inputPer1K, t.input);
    ItemSign(p.outputPer1K, t.output);
    ItemSign(p.cacheReadPer1K, t.cacheRead);
    ItemSign(p.cacheWritePer1K, t.cacheWrite);
  }
}
