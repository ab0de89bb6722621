/** Token counts and the usage/settle pair a finished request emits. */
module Metering {
  import opened Sequences
  import opened Ledger
  import opened Billing
  import Engine

  /** text None: a part that is not text (an image, a tool result). */
  datatype Part = Part(text: Option<string>)
  datatype Message = Message(content: seq<Part>)
  datatype Request = Request(model: string, system: string, messages: seq<Message>, maxTokens: Option<int>,
      stream: bool)

  /** A model's current price row; optional columns may be null. */
  datatype Price = Price(input: Money, output: Money, cacheRead: Option<Money>, cacheWrite: Option<Money>,
      perRequest: Money)

  /** Token counts as the upstream reported them. */
  datatype Usage = Usage(input: int, output: int, cacheRead: int)

  /** What a stream leaves behind: the last reported usage and the characters sent to the client. */
  datatype StreamUsage = StreamUsage(usage: Option<Usage>, deltaChars: nat)

  datatype Send = SendUsage(row: UsagePayload) | SendSettle(payload: SettlePayload)

  // ── estimates ──────────────────────────────────────────────────────────────

  function TextLength(p: Part): nat {
    if p.text.Some? then |p.text.value| else 0
  }

  function PartsLength(parts: seq<Part>): nat {
    if parts == [] then 0 else PartsLength(parts[..|parts| - 1]) + TextLength(parts[|parts| - 1])
  }

  function MessagesLength(ms: seq<Message>): nat {
    if ms == [] then 0 else MessagesLength(ms[..|ms| - 1]) + PartsLength(ms[|ms| - 1].content)
  }

  /** Bytes of prompt text, the system prompt included. */
  function PromptLength(req: Request): nat {
    MessagesLength(req.messages) + |req.system|
  }

  const DEFAULT_OUTPUT := 2048

  function Estimate(req: Request): Tokens {
    var n := if PromptLength(req) == 0 then 4 else PromptLength(req);
    var out := if req.maxTokens.Some? && req.maxTokens.value > 0 then req.maxTokens.value else DEFAULT_OUTPUT;
    Tokens(n / 4 + 1, out, 0, 0)
  }

  method CountParts(parts: seq<Part>, start: nat) returns (chars: nat)
    ensures chars == start + PartsLength(parts)
  {
    chars := start;
    for i := 0 to |parts|
      invariant chars == start + PartsLength(parts[..i])
    {
      assert parts[..i + 1][..i] == parts[..i];
      if parts[i].text.Some? {
        chars := chars + |parts[i].text.value|;
      }
    }
    assert parts[..|parts|] == parts;
  }

  method EstimateTokens(req: Request) returns (t: Tokens)
    ensures t == Estimate(req)
  {
    var chars := 0;
    for i := 0 to |req.messages|
      invariant chars == MessagesLength(req.messages[..i])
    {
      assert req.messages[..i + 1][..i] == req.messages[..i];
      chars := CountParts(req.messages[i].content, chars);
    }
    assert req.messages[..|req.messages|] == req.messages;
    chars := chars + |req.system|;
    if chars == 0 {
      chars := 4;
    }
    var out := DEFAULT_OUTPUT;
    if req.maxTokens.Some? && req.maxTokens.value > 0 {
      out := req.maxTokens.value;
    }
    t := Tokens(chars / 4 + 1, out, 0, 0);
  }

  lemma {:induction false} MessagesLengthAppend(a: seq<Message>, b: seq<Message>)
    ensures MessagesLength(a + b) == MessagesLength(a) + MessagesLength(b)
  {
    if b == [] {
      assert a + b == a;
    } else {
      assert (a + b)[..|a + b| - 1] == a + b[..|b| - 1];
      MessagesLengthAppend(a, b[..|b| - 1]);
    }
  }

  /** The text parts one after the other, whatever lies between them. */
  function TextOf(parts: seq<Part>): string {
    if parts == [] then ""
    else TextOf(parts[..|parts| - 1]) + match parts[|parts| - 1].text case Some(s) => s case None => ""
  }

  function Transcript(ms: seq<Message>): string {
    if ms == [] then "" else Transcript(ms[..|ms| - 1]) + TextOf(ms[|ms| - 1].content)
  }

  lemma {:induction false} PartsAreText(parts: seq<Part>)
    ensures PartsLength(parts) == |TextOf(parts)|
  {
    if parts != [] {
      PartsAreText(parts[..|parts| - 1]);
    }
  }

  lemma {:induction false} MessagesAreText(ms: seq<Message>)
    ensures MessagesLength(ms) == |Transcript(ms)|
  {
    if ms != [] {
      MessagesAreText(ms[..|ms| - 1]);
      PartsAreText(ms[|ms| - 1].content);
    }
  }

  /** The prompt's length is that of the system prompt and of everything said, other parts left out; the answer
      is estimated at what the request allows, if it allows anything, and nothing is expected from a cache. */
  lemma EstimateIs(req: Request)
    ensures PromptLength(req) == |req.system + Transcript(req.messages)|
    ensures
      var t := Estimate(req);
      && (req.maxTokens.Some? && req.maxTokens.value > 0 ==> t.output == req.maxTokens.value)
      && (req.maxTokens == None || req.maxTokens.value <= 0 ==> t.output == 2048)
      && t.cacheRead == t.cacheWrite == 0
  {
    MessagesAreText(req.messages);
  }

  /** The estimate never undercounts the prompt at four bytes a token and is at most one token over, two for
      an empty prompt.  So it drops when messages are added exactly where they make an empty prompt one of
      one to three bytes. */
  lemma EstimateCovers(req: Request, more: seq<Message>)
    ensures
      var n, t := PromptLength(req), Estimate(req);
      n < 4 * t.input <= (if n == 0 then 8 else n + 4) && t.output > 0
    ensures Estimate(req.(messages := req.messages + more)).input < Estimate(req).input <==>
            PromptLength(req) == 0 && 1 <= MessagesLength(more) <= 3
  {
    MessagesLengthAppend(req.messages, more);
  }

  // ── stream accounting ──────────────────────────────────────────────────────

  predicate Reported(su: StreamUsage) {
    su.usage.Some? && (su.usage.value.input > 0 || su.usage.value.output > 0)
  }

  function StreamTokens(su: StreamUsage, req: Request): Tokens {
    if Reported(su) then Tokens(su.usage.value.input, su.usage.value.output, su.usage.value.cacheRead, 0)
    else
      var out := if su.deltaChars / 4 == 0 && su.deltaChars > 0 then 1 else su.deltaChars / 4;
      Tokens(Estimate(req).input, out, 0, 0)
  }

  method ResolveStreamTokens(su: StreamUsage, req: Request) returns (t: Tokens)
    ensures t == StreamTokens(su, req)
  {
    if su.usage.Some? && (su.usage.value.input > 0 || su.usage.value.output > 0) {
      return Tokens(su.usage.value.input, su.usage.value.output, su.usage.value.cacheRead, 0);
    }
    var est := EstimateTokens(req);
    var out := su.deltaChars / 4;
    if out == 0 && su.deltaChars > 0 {
      out := 1;
    }
    t := Tokens(est.input, out, 0, 0);
  }

  function Billed(t: Tokens): int { t.input + t.output }

  /** No stream is free: what is billed is positive unless the upstream itself reports one positive count
      cancelled by a negative one.  It is billed the counts reported, and for want of any what four bytes a
      token make of the prompt and of the text delivered. */
  lemma StreamIsBilled(su: StreamUsage, req: Request)
    ensures
      var t, n := StreamTokens(su, req), PromptLength(req);
      if su.usage.Some? && (su.usage.value.input > 0 || su.usage.value.output > 0) then
        var u := su.usage.value;
        t == Tokens(u.input, u.output, u.cacheRead, 0) && (Billed(t) > 0 <==> u.input > -u.output)
      else
        && n < 4 * t.input <= (if n == 0 then 8 else n + 4) && t.cacheRead == t.cacheWrite == 0
        && t.output <= su.deltaChars <= 4 * t.output + 3 && (t.output == 0 <==> su.deltaChars == 0)
        && Billed(t) > 0
    ensures su.usage.Some? && su.usage.value.input >= 0 && su.usage.value.output >= 0 ==>
            Billed(StreamTokens(su, req)) > 0
  {
    EstimateCovers(req, []);
  }

  lemma NegativeUsageIsFree(req: Request)
    ensures Billed(StreamTokens(StreamUsage(Some(Usage(5, -7, 0)), 400), req)) <= 0
  {
    assert Reported(StreamUsage(Some(Usage(5, -7, 0)), 400));
  }

  // ── emission ───────────────────────────────────────────────────────────────

  function OrZero(m: Option<Money>): Money {
    if m.Some? then m.value else 0.0
  }

  /** Without a price row only the rate is set, so everything costs nothing. */
  function Snapshot(price: Option<Price>, groupRate: Money, channelRate: Money): PriceSnapshot {
    var rate := groupRate * channelRate;
    if price == None then PriceSnapshot(0.0, 0.0, 0.0, 0.0, 0.0, rate)
    else
      var p := price.value;
      PriceSnapshot(p.input, p.output, OrZero(p.cacheRead), OrZero(p.cacheWrite), p.perRequest, rate)
  }

  method EstimateCost(snapshot: PriceSnapshot, req: Request) returns (cost: Money)
    ensures cost == ComputeCost(snapshot, Estimate(req), false)
  {
    var t := EstimateTokens(req);
    cost := ComputeCost(snapshot, t, false);
  }

  predicate PriceNonNegative(price: Option<Price>) {
    price.Some? ==>
      && price.value.input >= 0.0 && price.value.output >= 0.0
      && OrZero(price.value.cacheRead) >= 0.0 && OrZero(price.value.cacheWrite) >= 0.0
  }

  lemma UnpricedIsFree(groupRate: Money, channelRate: Money, t: Tokens)
    ensures ComputeCost(Snapshot(None, groupRate, channelRate), t, false) == 0.0
  {
    assert Item(0.0, t.input) == 0.0 && Item(0.0, t.output) == 0.0 && Item(0.0, t.cacheRead) == 0.0 &&
        Item(0.0, t.cacheWrite) == 0.0;
  }

  lemma ItemPositiveIff(per1K: Money, count: int)
    requires per1K >= 0.0 && count > 0
    ensures Item(per1K, count) >= 0.0
    ensures Item(per1K, count) > 0.0 <==> per1K > 0.0
  {
    ItemSign(per1K, count);
    assert per1K == 0.0 ==> Item(per1K, count) == 0.0;
  }

  lemma CostPositiveIff(p: PriceSnapshot, t: Tokens)
    requires p.inputPer1K >= 0.0 && p.outputPer1K >= 0.0 && p.rate >= 0.0
    requires t.input > 0 && t.output > 0 && t.cacheRead == 0 && t.cacheWrite == 0
    ensures ComputeCost(p, t, false) > 0.0 <==> p.inputPer1K > 0.0 || p.outputPer1K > 0.0
  {
    var i, o := Item(p.inputPer1K, t.input), Item(p.outputPer1K, t.output);
    ItemPositiveIff(p.inputPer1K, t.input);
    ItemPositiveIff(p.outputPer1K, t.output);
    var factor := if p.rate == 0.0 then 1.0 else p.rate;
    assert Item(p.cacheReadPer1K, 0) == 0.0 && Item(p.cacheWritePer1K, 0) == 0.0;
    assert ComputeCost(p, t, false) == (i + o) * factor;
    ScaledSign(i + o, factor);
  }

  /** An estimate costs something exactly when the model has an input or an output price, whatever the group
      rate, zero included. */
  lemma EstimateIsPositiveIff(price: Option<Price>, groupRate: Money, req: Request)
    requires PriceNonNegative(price) && groupRate >= 0.0
    ensures ComputeCost(Snapshot(price, groupRate, 1.0), Estimate(req), false) > 0.0 <==>
            price.Some? && (price.value.input > 0.0 || price.value.output > 0.0)
  {
    EstimateCovers(req, []);
    if price == None {
      UnpricedIsFree(groupRate, 1.0, Estimate(req));
    } else {
      CostPositiveIff(Snapshot(price, groupRate, 1.0), Estimate(req));
    }
  }

  lemma ScaledSign(x: Money, factor: Money)
    requires x >= 0.0 && factor > 0.0
    ensures x * factor > 0.0 <==> x > 0.0
  {
  }

  /** The rate a snapshot charges at. */
  function Factor(groupRate: Money, channelRate: Money): Money {
    if groupRate * channelRate == 0.0 then 1.0 else groupRate * channelRate
  }

  lemma ItemStep(per1K: Money, count: int)
    ensures Item(per1K, count + 1000) == Item(per1K, count) + per1K
  {
  }

  lemma CostStep(a: Money, b: Money, step: Money, factor: Money)
    requires b == a + step
    ensures b * factor == a * factor + step * factor
  {
  }

  /** A thousand more tokens of one class cost that class's price at the combined rate, and cache writes,
      which are never counted, aside, no class is charged at another's price. */
  lemma ThousandTokensCost(p: Price, groupRate: Money, channelRate: Money, t: Tokens)
    ensures
      var s, f := Snapshot(Some(p), groupRate, channelRate), Factor(groupRate, channelRate);
      var cost := ComputeCost(s, t, false);
      && ComputeCost(s, t.(input := t.input + 1000), false) == cost + p.input * f
      && ComputeCost(s, t.(output := t.output + 1000), false) == cost + p.output * f
      && ComputeCost(s, t.(cacheRead := t.cacheRead + 1000), false) == cost + OrZero(p.cacheRead) * f
      && ComputeCost(s, t.(cacheWrite := t.cacheWrite + 1000), false) == cost + OrZero(p.cacheWrite) * f
      && ComputeCost(s, t, true) == cost + p.perRequest
      && ComputeCost(s, Tokens(0, 0, 0, 0), false) == 0.0
  {
    var s, f := Snapshot(Some(p), groupRate, channelRate), Factor(groupRate, channelRate);
    var items := Item(p.input, t.input) + Item(p.output, t.output) + Item(s.cacheReadPer1K, t.cacheRead) +
        Item(s.cacheWritePer1K, t.cacheWrite);
    ItemStep(p.input, t.input);
    ItemStep(p.output, t.output);
    ItemStep(s.cacheReadPer1K, t.cacheRead);
    ItemStep(s.cacheWritePer1K, t.cacheWrite);
    CostStep(items, items + p.input, p.input, f);
    CostStep(items, items + p.output, p.output, f);
    CostStep(items, items + s.cacheReadPer1K, s.cacheReadPer1K, f);
    CostStep(items, items + s.cacheWritePer1K, s.cacheWritePer1K, f);
    assert Item(p.input, 0) == 0.0 && Item(p.output, 0) == 0.0 && Item(s.cacheReadPer1K, 0) == 0.0 &&
        Item(s.cacheWritePer1K, 0) == 0.0;
  }

  predicate PricesNonNegative(p: PriceSnapshot) {
    p.inputPer1K >= 0.0 && p.outputPer1K >= 0.0 && p.cacheReadPer1K >= 0.0 && p.cacheWritePer1K >= 0.0 && p.rate >= 0.0
  }

  /** The counts weighted by their prices, in thousandths. */
  function Weighted(p: PriceSnapshot, t: Tokens): Money {
    p.inputPer1K * (t.input as real) + p.outputPer1K * (t.output as real) + p.cacheReadPer1K * (t.cacheRead as real)
  }

  lemma Thousandths(a: Money, b: Money, c: Money)
    ensures a / 1000.0 + b / 1000.0 + c / 1000.0 == (a + b + c) / 1000.0
  {
  }

  lemma CostIsWeighted(p: PriceSnapshot, t: Tokens)
    requires t.cacheWrite == 0
    ensures ComputeCost(p, t, false) == Weighted(p, t) / 1000.0 * (if p.rate == 0.0 then 1.0 else p.rate)
  {
    Thousandths(p.inputPer1K * (t.input as real), p.outputPer1K * (t.output as real),
        p.cacheReadPer1K * (t.cacheRead as real));
    assert Item(p.cacheWritePer1K, 0) == 0.0;
    assert Item(p.inputPer1K, t.input) + Item(p.outputPer1K, t.output) +
        Item(p.cacheReadPer1K, t.cacheRead) == Weighted(p, t) / 1000.0;
  }

  predicate CountsNonNegative(su: StreamUsage) {
    Reported(su) ==> su.usage.value.input >= 0 && su.usage.value.output >= 0 && su.usage.value.cacheRead >= 0
  }

  lemma ScaledNegative(x: Money, factor: Money)
    requires factor > 0.0
    ensures x / 1000.0 * factor < 0.0 <==> x < 0.0
  {
  }

  lemma ProductNonNegative(price: Money, count: int)
    requires price >= 0.0 && count >= 0
    ensures price * (count as real) >= 0.0
  {
  }

  /** What a stream costs, by sign: negative exactly when the counts weighted by their prices are, so never
      for counts the upstream reports honestly, however few tokens they are. */
  lemma StreamCostSign(p: PriceSnapshot, su: StreamUsage, req: Request)
    requires PricesNonNegative(p)
    ensures ComputeCost(p, StreamTokens(su, req), false) < 0.0 <==> Weighted(p, StreamTokens(su, req)) < 0.0
    ensures CountsNonNegative(su) ==> ComputeCost(p, StreamTokens(su, req), false) >= 0.0
  {
    var t := StreamTokens(su, req);
    CostIsWeighted(p, t);
    ScaledNegative(Weighted(p, t), if p.rate == 0.0 then 1.0 else p.rate);
    if CountsNonNegative(su) {
      EstimateCovers(req, []);
      ProductNonNegative(p.inputPer1K, t.input);
      ProductNonNegative(p.outputPer1K, t.output);
      ProductNonNegative(p.cacheReadPer1K, t.cacheRead);
    }
  }

  /** Five input tokens and minus three dearer output tokens: two tokens are billed, at less than nothing, and
      the settlement is refused wherever L2 does not answer it. */
  lemma NegativeStreamIsRefused(p: PriceSnapshot, req: Request, db: Db, requestId: string, user: int)
    requires PricesNonNegative(p) && 5.0 * p.inputPer1K < 3.0 * p.outputPer1K
    ensures
      var t := StreamTokens(StreamUsage(Some(Usage(5, -3, 0)), 0), req);
      && Billed(t) == 2
      && ComputeCost(p, t, false) < 0.0
      && Engine.Delivery.Apply(db, Engine.Charge(SettlePayload(requestId, user, t, p))) == (db, Failed(BadInput))
  {
    var su := StreamUsage(Some(Usage(5, -3, 0)), 0);
    assert Reported(su);
    StreamCostSign(p, su, req);
  }

  /** The two tasks of one finished request, in the order they are sent. */
  function Pair(requestId: string, user: int, tokens: Tokens, snapshot: PriceSnapshot, stream: bool, status: int,
      errCode: string): seq<Send> {
    [SendUsage(UsagePayload(requestId, user, tokens, ComputeCost(snapshot, tokens, false), snapshot, stream, status,
        errCode)),
     SendSettle(SettlePayload(requestId, user, tokens, snapshot))]
  }

  /** Both sends are attempted whatever the first one's outcome; nothing is sent without a producer or an id. */
  method EmitMetering(
    hasProd: bool, user: int, price: Option<Price>, groupRate: Money, channelRate: Money,
    tokens: Tokens, requestId: string, stream: bool, status: int, errCode: string) returns (sent: seq<Send>)
    ensures sent == if hasProd && requestId != ""
            then Pair(requestId, user, tokens, Snapshot(price, groupRate, channelRate), stream, status, errCode) else []
    ensures hasProd && requestId != "" ==>
              && |sent| == 2 && sent[0].SendUsage? && sent[1].SendSettle?
              && Engine.Charge(sent[1].payload).amount == sent[0].row.totalCost
              && Engine.Charge(sent[1].payload).requestId == sent[0].row.requestId
              && Engine.Charge(sent[1].payload).user == sent[0].row.user
              && sent[0].row.requestId == requestId && sent[0].row.user == user
              && sent[0].row.tokens == sent[1].payload.tokens == tokens
              && sent[0].row.snapshot == sent[1].payload.snapshot == Snapshot(price, groupRate, channelRate)
              && sent[0].row.stream == stream && sent[0].row.statusCode == status && sent[0].row.errorCode == errCode
  {
    sent := [];
    if !hasProd || requestId == "" {
      return;
    }
    var snapshot := Snapshot(price, groupRate, channelRate);
    var cost := ComputeCost(snapshot, tokens, false);
    sent := sent + [SendUsage(UsagePayload(requestId, user, tokens, cost, snapshot, stream, status, errCode))];
    sent := sent + [SendSettle(SettlePayload(requestId, user, tokens, snapshot))];
  }

  /** The settle hook of a stream: the usual pair, from what the stream left behind. */
  method SettleStream(
    hasProd: bool, user: int, price: Option<Price>, groupRate: Money, channelRate: Money,
    su: StreamUsage, req: Request, requestId: string, status: int, errCode: string) returns (sent: seq<Send>)
    ensures sent == if hasProd && requestId != ""
                    then Pair(requestId, user, StreamTokens(su, req), Snapshot(price, groupRate, channelRate), true,
                        status, errCode) else []
  {
    var tokens := ResolveStreamTokens(su, req);
    sent := EmitMetering(hasProd, user, price, groupRate, channelRate, tokens, requestId, true, status, errCode);
  }
}
