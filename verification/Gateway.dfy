/** One chat request: prechecks, reservation, failover over the route plan, release or metering. */
module Gateway {
  import opened Sequences
  import opened Ledger
  import opened Billing
  import Router
  import Metering
  import Gate

  datatype Caller = Caller(user: int, whitelist: seq<string>, groupAllowed: seq<string>, groupFallbacks: seq<string>,
      groupRate: Money)

  datatype Err = Api(status: int, code: string) | Upstream(upStatus: int, upCode: string) | Cancelled | Other

  /** hasRes: the reservation gate is configured.  hasProd: the task producer is. */
  datatype Parts = Parts(hasRes: bool, hasProd: bool)

  datatype Resolution = Resolved(status: string, price: Option<Metering.Price>, fallbacks: seq<string>)
      | Unknown | ResolveError

  datatype BalanceReply = BalanceRow(balance: Money) | NoBalance | BalanceError

  /** None stands for a failed read of the group's channels. */
  datatype Catalog = Catalog(channels: seq<Router.Channel>, now: int, lookup: string -> Option<seq<Router.Mapping>>,
      rate: int -> Money)

  datatype Outcome = Success(usage: Metering.Usage) | Failure(err: Err, retryable: bool)

  /** What happens at the i-th candidate: the client has gone away, or the upstream answers. */
  datatype Turn = Turn(cancelled: bool, outcome: Outcome)

  /** Everything a request meets outside the process. */
  datatype Surroundings = Surroundings(
    resolution: Resolution, balance: BalanceReply, reserve: Gate.Result, catalog: Option<Catalog>, turns: nat -> Turn)

  datatype Call =
    | ReadBalance(user: int)
    | ReserveFor(user: int, requestId: string, amount: Money)
    | ResetFor(user: int, requestId: string)
    | Emit(send: Metering.Send)

  datatype Reply = Served(attempt: Router.Attempt) | Streaming(attempt: Router.Attempt) | Error(err: Err)

  /** The calls made, in order: those before the failover loop, the attempts, those after it. */
  datatype Trace = Trace(before: seq<Call>, tried: seq<Router.Attempt>, after: seq<Call>)

  const INVALID_REQUEST := Api(400, "invalid_request")
  const BILLING_UNAVAILABLE := Api(503, "billing_unavailable")
  const MODEL_NOT_FOUND := Api(404, "model_not_found")
  const MODEL_NOT_ALLOWED := Api(403, "permission_denied")
  const INSUFFICIENT_BALANCE := Api(402, "insufficient_balance")
  const NO_CHANNEL := Api(503, "no_available_channel")

  predicate Allowed(c: Caller, name: string) {
    if c.whitelist != [] then name in c.whitelist else c.groupAllowed != [] ==> name in c.groupAllowed
  }

  /** A key's own whitelist replaces its group's; an empty list restricts nothing. */
  method AllowedModel(whitelist: seq<string>, groupAllowed: seq<string>, name: string) returns (ok: bool)
    ensures whitelist != [] ==> (ok <==> name in whitelist)
    ensures whitelist == [] && groupAllowed != [] ==> (ok <==> name in groupAllowed)
    ensures whitelist == [] && groupAllowed == [] ==> ok
  {
    if |whitelist| > 0 {
      ok := Contains(whitelist, name);
      return;
    }
    if |groupAllowed| > 0 {
      ok := Contains(groupAllowed, name);
      return;
    }
    ok := true;
  }

  /** The last failure as the client sees it. */
  function FinalError(last: Option<Err>): (e: Err)
    ensures e.Api? || e.Cancelled?
    ensures last.Some? && (last.value.Api? || last.value.Cancelled?) ==> e == last.value
    ensures last.Some? && last.value.Upstream? ==> e == Api(last.value.upStatus, last.value.upCode)
    ensures last.Some? && last.value.Other? ==> e == Api(502, "upstream_error")
    ensures last == None ==> e == Api(503, "no_available_channel")
  {
    if last == None then NO_CHANNEL
    else
      match last.value
      case Api(_, _) => last.value
      case Upstream(s, c) => Api(s, c)
      case Cancelled => Cancelled
      case Other => Api(502, "upstream_error")
  }

  /** The amount a non-streaming request freezes: priced without a channel's rate. */
  function EstimateFor(c: Caller, req: Metering.Request, w: Surroundings): Money
    requires w.resolution.Resolved?
  {
    ComputeCost(Metering.Snapshot(w.resolution.price, c.groupRate, 1.0), Metering.Estimate(req), false)
  }

  predicate Reserves(g: Parts, c: Caller, req: Metering.Request, w: Surroundings)
    requires w.resolution.Resolved?
  {
    g.hasRes && !req.stream && EstimateFor(c, req, w) > 0.0
  }

  predicate Granted(r: Gate.Result) {
    r.Reserved? || r.NothingToReserve?
  }

  /** Why a request is turned away before any channel is planned, in the order of the checks. */
  function Refusal(g: Parts, c: Option<Caller>, req: Metering.Request, w: Surroundings): Option<Err> {
    if c == None then Some(INVALID_REQUEST)
    else if g.hasRes && !g.hasProd then Some(BILLING_UNAVAILABLE)
    else if w.resolution.ResolveError? then Some(Other)
    else if w.resolution.Unknown? || w.resolution.status != "active" then Some(MODEL_NOT_FOUND)
    else if !Allowed(c.value, req.model) then Some(MODEL_NOT_ALLOWED)
    else if !g.hasRes || req.stream then
      if w.balance.BalanceError? then Some(Other)
      else if w.balance.NoBalance? || w.balance.balance <= 0.0 then Some(INSUFFICIENT_BALANCE)
      else None
    else if !Reserves(g, c.value, req, w) || Granted(w.reserve) then None
    else if w.reserve.Insufficient? then Some(INSUFFICIENT_BALANCE)
    else Some(Other)
  }

  /** Who may be forwarded at all: a known caller, a public model the key or group allows, a way to bill, and
      either a positive balance or a reservation for whatever the estimate costs. */
  predicate Entitled(g: Parts, c: Option<Caller>, req: Metering.Request, w: Surroundings) {
    && c.Some? && (g.hasRes ==> g.hasProd)
    && w.resolution.Resolved? && w.resolution.status == "active" && Allowed(c.value, req.model)
    && (!g.hasRes || req.stream ==> w.balance.BalanceRow? && w.balance.balance > 0.0)
    && (Reserves(g, c.value, req, w) ==> w.reserve.Reserved? || w.reserve.NothingToReserve?)
  }

  /** Who is turned away, and as what: each check in turn, the ones before it passed. */
  lemma RefusedAs(g: Parts, c: Option<Caller>, req: Metering.Request, w: Surroundings)
    ensures
      var r := Refusal(g, c, req, w);
      && (r == None <==> Entitled(g, c, req, w))
      && (c == None ==> r == Some(Api(400, "invalid_request")))
      && (c.Some? && g.hasRes && !g.hasProd ==> r == Some(Api(503, "billing_unavailable")))
      && (c.Some? && (g.hasRes ==> g.hasProd) ==>
            && (w.resolution.ResolveError? ==> r == Some(Other))
            && (w.resolution.Unknown? || (w.resolution.Resolved? && w.resolution.status != "active") ==>
                  r == Some(Api(404, "model_not_found")))
            && (w.resolution.Resolved? && w.resolution.status == "active" ==>
                  (r == Some(Api(403, "permission_denied")) <==>
                     if c.value.whitelist != [] then req.model !in c.value.whitelist
                     else c.value.groupAllowed != [] && req.model !in c.value.groupAllowed)))
  {
  }

  /** A request that passed those checks fails for want of money, or because money could not be looked up. */
  lemma RefusedForMoney(g: Parts, c: Caller, req: Metering.Request, w: Surroundings)
    requires (g.hasRes ==> g.hasProd) && w.resolution.Resolved? && w.resolution.status == "active" &&
             Allowed(c, req.model)
    ensures
      var r := Refusal(g, Some(c), req, w);
      if !g.hasRes || req.stream then
        && (r == Some(Api(402, "insufficient_balance")) <==>
              w.balance.NoBalance? || (w.balance.BalanceRow? && w.balance.balance <= 0.0))
        && (r == Some(Other) <==> w.balance.BalanceError?)
      else
        && (r == Some(Api(402, "insufficient_balance")) <==> EstimateFor(c, req, w) > 0.0 && w.reserve.Insufficient?)
        && (r == Some(Other) <==> EstimateFor(c, req, w) > 0.0 && !w.reserve.Insufficient? && !w.reserve.Reserved? &&
                                  !w.reserve.NothingToReserve?)
  {
  }

  /** The candidates of an admitted request; None when the catalogue fails. */
  function Candidates(c: Caller, req: Metering.Request, w: Surroundings): Option<seq<Router.Attempt>>
    requires w.resolution.Resolved?
  {
    if w.catalog == None then None
    else Router.ExpandAll(FirstOccurrences([req.model] + c.groupFallbacks + w.resolution.fallbacks),
                          w.catalog.value.channels, w.catalog.value.now, w.catalog.value.lookup)
  }

  /** A candidate after which the loop goes on. */
  predicate Passed(turn: Turn, stream: bool) {
    !turn.cancelled && turn.outcome.Failure? && (stream || turn.outcome.retryable)
  }

  /** The failover loop as run over `plan`, having stopped after the candidates in `tried`. */
  ghost predicate Stopped(plan: seq<Router.Attempt>, w: Surroundings, stream: bool, tried: seq<Router.Attempt>,
      out: Reply) {
    var n := |tried|;
    && tried <= plan
    && (forall i :: 0 <= i < n ==> !w.turns(i).cancelled)
    && (forall i :: 0 <= i < n - 1 ==> Passed(w.turns(i), stream))
    && (out.Error? <==> n == 0 || w.turns(n - 1).outcome.Failure?)
    && (out.Served? ==> !stream && out.attempt == tried[n - 1])
    && (out.Streaming? ==> stream && out.attempt == tried[n - 1])
    && (out.Error? && n < |plan| ==>
          if n > 0 && !Passed(w.turns(n - 1), stream) then out == Error(FinalError(Some(w.turns(n - 1).outcome.err)))
          else w.turns(n).cancelled && out == Error(Cancelled))
    && (out.Error? && n == |plan| && n > 0 ==> out == Error(FinalError(Some(w.turns(n - 1).outcome.err))))
  }

  predicate Succeeded(w: Surroundings, tried: seq<Router.Attempt>) {
    tried != [] && w.turns(|tried| - 1).outcome.Success?
  }

  /** The outcome of an admitted request, from its candidates. */
  ghost predicate Planned(plan: Option<seq<Router.Attempt>>, w: Surroundings, stream: bool, tried: seq<Router.Attempt>,
      out: Reply) {
    match plan
    case None => out == Error(Other) && tried == []
    case Some(p) => if p == [] then out == Error(NO_CHANNEL) && tried == [] else Stopped(p, w, stream, tried, out)
  }

  /** The one money call made before planning. */
  function Opening(g: Parts, c: Caller, req: Metering.Request, requestId: string, w: Surroundings): seq<Call>
    requires w.resolution.Resolved?
  {
    if !g.hasRes || req.stream then [ReadBalance(c.user)]
    else if Reserves(g, c, req, w) then [ReserveFor(c.user, requestId, EstimateFor(c, req, w))]
    else []
  }

  /** The reservation is given back. */
  function Release(reserved: bool, user: int, requestId: string): seq<Call> {
    if reserved && requestId != "" then [ResetFor(user, requestId)] else []
  }

  function Metered(g: Parts, c: Caller, a: Router.Attempt, w: Surroundings, usage: Metering.Usage,
      requestId: string): seq<Call>
    requires w.resolution.Resolved? && w.catalog.Some?
  {
    if g.hasProd && requestId != "" then
      var pair := Metering.Pair(
        requestId, c.user, Tokens(usage.input, usage.output, usage.cacheRead, 0),
        Metering.Snapshot(w.resolution.price, c.groupRate, w.catalog.value.rate(a.channel.id)), false, 200, "");
      [Emit(pair[0]), Emit(pair[1])]
    else []
  }

  /** Every check that needs no money lookup is passed. */
  predicate ReachesMoney(g: Parts, c: Option<Caller>, req: Metering.Request, w: Surroundings) {
    && c.Some? && (g.hasRes ==> g.hasProd)
    && w.resolution.Resolved? && w.resolution.status == "active" && Allowed(c.value, req.model)
  }

  /** The checks before planning; reserved tells whether the gate now holds the estimate. */
  method Admit(g: Parts, c: Option<Caller>, req: Metering.Request, requestId: string, w: Surroundings)
    returns (refused: Option<Err>, before: seq<Call>, reserved: bool)
    ensures refused == Refusal(g, c, req, w)
    ensures refused.Some? ==> !reserved && before == (if ReachesMoney(g, c, req, w)
            then Opening(g, c.value, req, requestId, w) else [])
    ensures refused == None ==>
            reserved == Reserves(g, c.value, req, w) && before == Opening(g, c.value, req, requestId, w)
  {
    refused, before, reserved := None, [], false;
    if c == None {
      return Some(INVALID_REQUEST), before, false;
    }
    if g.hasRes && !g.hasProd {
      return Some(BILLING_UNAVAILABLE), before, false;
    }
    if w.resolution.ResolveError? {
      return Some(Other), before, false;
    }
    if w.resolution.Unknown? || w.resolution.status != "active" {
      return Some(MODEL_NOT_FOUND), before, false;
    }
    var allowed := AllowedModel(c.value.whitelist, c.value.groupAllowed, req.model);
    if !allowed {
      return Some(MODEL_NOT_ALLOWED), before, false;
    }
    if !g.hasRes || req.stream {
      before := [ReadBalance(c.value.user)];
      if w.balance.BalanceError? {
        refused := Some(Other);
      } else if w.balance.NoBalance? || !(w.balance.balance > 0.0) {
        refused := Some(INSUFFICIENT_BALANCE);
      }
    } else {
      var est := Metering.EstimateCost(Metering.Snapshot(w.resolution.price, c.value.groupRate, 1.0), req);
      if est > 0.0 {
        before := [ReserveFor(c.value.user, requestId, est)];
        if !Granted(w.reserve) {
          return Some(if w.reserve.Insufficient? then INSUFFICIENT_BALANCE else Other), before, false;
        }
        reserved := true;
      }
    }
  }

  /** The failover loop over a non-empty plan. */
  method Failover(plan: seq<Router.Attempt>, w: Surroundings, stream: bool)
      returns (out: Reply, tried: seq<Router.Attempt>)
    requires plan != []
    ensures Stopped(plan, w, stream, tried, out)
  {
    var last: Option<Err> := None;
    tried := [];
    var i := 0;
    while i < |plan|
      invariant 0 <= i <= |plan| && tried == plan[..i]
      invariant forall k :: 0 <= k < i ==> Passed(w.turns(k), stream)
      invariant last == if i == 0 then None else Some(w.turns(i - 1).outcome.err)
    {
      if w.turns(i).cancelled {
        return Error(Cancelled), tried;
      }
      tried := tried + [plan[i]];
      var outcome := w.turns(i).outcome;
      if stream {
        if outcome.Success? {
          return Streaming(plan[i]), tried;
        }
        last := Some(outcome.err);
      } else {
        if outcome.Success? {
          return Served(plan[i]), tried;
        }
        last := Some(outcome.err);
        if !outcome.retryable {
          break;
        }
      }
      i := i + 1;
    }
    out := Error(FinalError(last));
  }

  /** The two metering calls of a finished request. */
  method Meter(g: Parts, c: Caller, a: Router.Attempt, w: Surroundings, usage: Metering.Usage, requestId: string)
      returns (calls: seq<Call>)
    requires w.resolution.Resolved? && w.catalog.Some?
    ensures calls == Metered(g, c, a, w, usage, requestId)
  {
    var sent := Metering.EmitMetering(
      g.hasProd, c.user, w.resolution.price, c.groupRate, w.catalog.value.rate(a.channel.id),
      Tokens(usage.input, usage.output, usage.cacheRead, 0), requestId, false, 200, "");
    calls := seq(|sent|, k requires 0 <= k < |sent| => Emit(sent[k]));
  }

  /** The plan of an admitted request: the fallback chain through the router. */
  method PlanFor(c: Caller, req: Metering.Request, w: Surroundings) returns (plan: Option<seq<Router.Attempt>>)
    requires w.resolution.Resolved?
    ensures plan == Candidates(c, req, w)
  {
    var chain := Router.FallbackChain(req.model, c.groupFallbacks, w.resolution.fallbacks);
    if w.catalog == None {
      return None;
    }
    var cat := w.catalog.value;
    var attempts, _ := Router.Plan(chain, cat.channels, cat.now, cat.lookup);
    plan := attempts;
  }

  /** The calls that close an admitted request. */
  function Closing(g: Parts, c: Caller, req: Metering.Request, requestId: string, w: Surroundings,
      tried: seq<Router.Attempt>, out: Reply): seq<Call>
    requires w.resolution.Resolved?
    requires out.Served? ==> w.catalog.Some? && Succeeded(w, tried)
  {
    match out
    case Error(_) => Release(Reserves(g, c, req, w), c.user, requestId)
    case Streaming(_) => []
    case Served(a) => Metered(g, c, a, w, w.turns(|tried| - 1).outcome.usage, requestId)
  }

  /** Chat.  A refused request touches no channel; an admitted one tries a prefix of its plan and ends with
      the first success; an error after a reservation releases it once, given a request id; a non-streaming
      success releases nothing and emits one usage/settle pair; a streaming request never reserves. */
  method Chat(g: Parts, c: Option<Caller>, req: Metering.Request, requestId: string, w: Surroundings)
      returns (out: Reply, tr: Trace)
    ensures Refusal(g, c, req, w).Some? ==>
              && out == Error(Refusal(g, c, req, w).value) && tr.tried == [] && tr.after == []
              && tr.before == if ReachesMoney(g, c, req, w) then Opening(g, c.value, req, requestId, w) else []
    ensures Refusal(g, c, req, w) == None ==>
              && tr.before == Opening(g, c.value, req, requestId, w)
              && Planned(Candidates(c.value, req, w), w, req.stream, tr.tried, out)
              && (out.Served? ==> w.catalog.Some? && Succeeded(w, tr.tried))
              && tr.after == Closing(g, c.value, req, requestId, w, tr.tried, out)
    ensures Refusal(g, c, req, w) == None <==> Entitled(g, c, req, w)
  {
    var refused, before, reserved := Admit(g, c, req, requestId, w);
    if refused.Some? {
      return Error(refused.value), Trace(before, [], []);
    }
    var user := c.value.user;
    var plan := PlanFor(c.value, req, w);
    if plan == None {
      return Error(Other), Trace(before, [], Release(reserved, user, requestId));
    }
    if plan.value == [] {
      return Error(NO_CHANNEL), Trace(before, [], Release(reserved, user, requestId));
    }
    var tried;
    out, tried := Failover(plan.value, w, req.stream);
    var after := [];
    if out.Error? {
      after := Release(reserved, user, requestId);
    } else if out.Served? {
      after := Meter(g, c.value, out.attempt, w, w.turns(|tried| - 1).outcome.usage, requestId);
    }
    tr := Trace(before, tried, after);
  }

  // ── what the failover contract determines ──────────────────────────────────

  /** The contract leaves no freedom: the candidates tried and the reply follow from the surroundings. */
  lemma StoppedDetermines(plan: seq<Router.Attempt>, w: Surroundings, stream: bool, t1: seq<Router.Attempt>, o1: Reply,
      t2: seq<Router.Attempt>, o2: Reply)
    requires plan != [] && Stopped(plan, w, stream, t1, o1) && Stopped(plan, w, stream, t2, o2)
    ensures t1 == t2 && o1 == o2
  {
    if |t1| < |t2| {
      StopsOnce(plan, w, stream, t1, o1, t2, o2);
    } else if |t2| < |t1| {
      StopsOnce(plan, w, stream, t2, o2, t1, o1);
    }
  }

  lemma StopsOnce(plan: seq<Router.Attempt>, w: Surroundings, stream: bool, t1: seq<Router.Attempt>, o1: Reply,
      t2: seq<Router.Attempt>, o2: Reply)
    requires Stopped(plan, w, stream, t1, o1) && Stopped(plan, w, stream, t2, o2)
    ensures |t1| >= |t2|
  {
    assert |t1| == 0 || |t1| >= |t2| || Passed(w.turns(|t1| - 1), stream);
  }

  /** The candidate is the last one tried: it succeeded, or, for a plain request, failed for good. */
  predicate EndsLoop(turn: Turn, stream: bool) {
    turn.outcome.Success? || (!stream && !turn.outcome.retryable)
  }

  /** Which candidates are tried: exactly those the client is still there for, no earlier one having ended the
      loop.  So a stream goes on after any failure, and a plain request after retryable ones. */
  lemma TriedIff(plan: seq<Router.Attempt>, w: Surroundings, stream: bool, tried: seq<Router.Attempt>, out: Reply,
      i: nat)
    requires Stopped(plan, w, stream, tried, out) && i < |plan|
    ensures tried <= plan
    ensures i < |tried| <==>
            (forall k :: 0 <= k <= i ==> !w.turns(k).cancelled) &&
            (forall k :: 0 <= k < i ==> !EndsLoop(w.turns(k), stream))
    ensures out.Error? <==> tried == [] || w.turns(|tried| - 1).outcome.Failure?
  {
    var n := |tried|;
    if i >= n {
      if n == 0 || Passed(w.turns(n - 1), stream) {
        assert w.turns(n).cancelled;
      } else {
        assert EndsLoop(w.turns(n - 1), stream);
      }
    }
  }

  /** The candidates of a request, entry by entry: the requested model, then the group's fallbacks, then the
      model's own, each name once, with every channel of the catalogue that is usable at its moment. */
  lemma PlannedInOrder(c: Caller, req: Metering.Request, w: Surroundings)
    returns (chain: seq<string>, at: seq<(nat, nat)>)
    requires w.resolution.Resolved? && Candidates(c, req, w).Some?
    ensures chain == FirstOccurrences([req.model] + (c.groupFallbacks + w.resolution.fallbacks)) && Distinct(chain)
    ensures
      var cat := w.catalog.value;
      && Router.Ordered(at, cat.channels, cat.now, |chain|)
      && Router.Lists(Candidates(c, req, w).value, at, chain, cat.channels, cat.now, cat.lookup)
  {
    assert [req.model] + c.groupFallbacks + w.resolution.fallbacks ==
        [req.model] + (c.groupFallbacks + w.resolution.fallbacks);
    chain := FirstOccurrences([req.model] + c.groupFallbacks + w.resolution.fallbacks);
    FirstOccurrencesDistinct([req.model] + c.groupFallbacks + w.resolution.fallbacks);
    var cat := w.catalog.value;
    at := Router.PlanInOrder(chain, cat.channels, cat.now, cat.lookup);
  }

  // ── reservation pairing ────────────────────────────────────────────────────

  /** What a request's calls leave frozen at the gate under its id. */
  function Frozen(calls: seq<Call>): Money {
    if calls == [] then 0.0
    else
      match calls[|calls| - 1]
      case ReserveFor(_, _, x) => Frozen(calls[..|calls| - 1]) + x
      case ResetFor(_, _) => 0.0
      case _ => Frozen(calls[..|calls| - 1])
  }

  function Settlements(calls: seq<Call>): seq<SettlePayload> {
    if calls == [] then []
    else
      var k := calls[|calls| - 1];
      Settlements(calls[..|calls| - 1]) + if k.Emit? && k.send.SendSettle? then [k.send.payload] else []
  }

  function UsageRows(calls: seq<Call>): seq<UsagePayload> {
    if calls == [] then []
    else
      var k := calls[|calls| - 1];
      UsageRows(calls[..|calls| - 1]) + if k.Emit? && k.send.SendUsage? then [k.send.row] else []
  }

  lemma CallSnoc(calls: seq<Call>, k: Call)
    ensures Frozen(calls + [k]) == (if k.ReserveFor? then Frozen(calls) + k.amount else if k.ResetFor? then 0.0
            else Frozen(calls))
    ensures Settlements(calls + [k]) == Settlements(calls) + if k.Emit? && k.send.SendSettle? then [k.send.payload]
            else []
    ensures UsageRows(calls + [k]) == UsageRows(calls) + if k.Emit? && k.send.SendUsage? then [k.send.row] else []
  {
    assert (calls + [k])[..|calls|] == calls;
  }

  /** What u costs at these prices and this rate, a zero rate counting as one; without a price row nothing. */
  function CostOf(price: Option<Metering.Price>, rate: Money, u: Metering.Usage): Money {
    if price == None then 0.0
    else
      var p := price.value;
      var weighted := (u.input as real) * p.input + (u.output as real) * p.output
          + (u.cacheRead as real) * Metering.OrZero(p.cacheRead);
      weighted / 1000.0 * if rate == 0.0 then 1.0 else rate
  }

  lemma ChargeIsCost(price: Option<Metering.Price>, groupRate: Money, channelRate: Money, u: Metering.Usage)
    ensures ComputeCost(Metering.Snapshot(price, groupRate, channelRate), Tokens(u.input, u.output, u.cacheRead, 0),
            false) == CostOf(price, groupRate * channelRate, u)
  {
    var t := Tokens(u.input, u.output, u.cacheRead, 0);
    if price == None {
      Metering.UnpricedIsFree(groupRate, channelRate, t);
    } else {
      Metering.CostIsWeighted(Metering.Snapshot(price, groupRate, channelRate), t);
    }
  }

  /** The one money call before planning: a balance read for a stream or without a gate, and otherwise a
      reservation of what the estimated tokens cost at the prices of the model and the rate of the group, if
      that is anything. */
  lemma OpensWith(g: Parts, c: Caller, req: Metering.Request, requestId: string, w: Surroundings)
    requires w.resolution.Resolved?
    ensures
      var before, est := Opening(g, c, req, requestId, w), Metering.Estimate(req);
      var cost := CostOf(w.resolution.price, c.groupRate, Metering.Usage(est.input, est.output, 0));
      if !g.hasRes || req.stream then before == [ReadBalance(c.user)]
      else before == if cost > 0.0 then [ReserveFor(c.user, requestId, cost)] else []
  {
    var est := Metering.Estimate(req);
    ChargeIsCost(w.resolution.price, c.groupRate, 1.0, Metering.Usage(est.input, est.output, 0));
    assert c.groupRate * 1.0 == c.groupRate;
  }

  lemma OpeningCalls(g: Parts, c: Caller, req: Metering.Request, requestId: string, w: Surroundings)
    requires w.resolution.Resolved?
    ensures
      var before := Opening(g, c, req, requestId, w);
      && Frozen(before) == (if Reserves(g, c, req, w) then EstimateFor(c, req, w) else 0.0)
      && Settlements(before) == [] && UsageRows(before) == []
  {
    var before := Opening(g, c, req, requestId, w);
    if before != [] {
      CallSnoc([], before[0]);
      assert before == [] + [before[0]];
    }
  }

  /** No failed request keeps money frozen, except one that carries no request id: there the release is
      skipped and the whole estimate stays. */
  lemma ErrorLeavesFrozen(g: Parts, c: Caller, req: Metering.Request, requestId: string, w: Surroundings,
      tried: seq<Router.Attempt>, out: Reply)
    requires Refusal(g, Some(c), req, w) == None && out.Error?
    ensures
      var before, after := Opening(g, c, req, requestId, w), Closing(g, c, req, requestId, w, tried, out);
      && (Frozen(before + after) == 0.0 <==> requestId != "" || !Reserves(g, c, req, w))
      && (requestId == "" && Reserves(g, c, req, w) ==> Frozen(before + after) == EstimateFor(c, req, w))
      && after == (if Reserves(g, c, req, w) && requestId != "" then [ResetFor(c.user, requestId)] else [])
      && UsageRows(before + after) == [] && Settlements(before + after) == []
  {
    OpeningCalls(g, c, req, requestId, w);
    var before, after := Opening(g, c, req, requestId, w), Closing(g, c, req, requestId, w, tried, out);
    if after == [] {
      assert before + after == before;
    } else {
      CallSnoc(before, after[0]);
    }
  }

  /** A served request is metered exactly when there is a producer and it carries an id: then by one usage row
      and one settlement, both with the counts the upstream reported for the attempt that succeeded, for the
      caller, as a plain success; and the settlement charges what those counts cost at the model's prices,
      the group's rate and the rate of the channel that served.  What was reserved stays frozen until then. */
  lemma ServedIsMetered(g: Parts, c: Caller, req: Metering.Request, requestId: string, w: Surroundings,
      tried: seq<Router.Attempt>, out: Reply)
    requires Refusal(g, Some(c), req, w) == None && out.Served? && w.catalog.Some? && Succeeded(w, tried)
    ensures
      var calls := Opening(g, c, req, requestId, w) + Closing(g, c, req, requestId, w, tried, out);
      var rows, settles := UsageRows(calls), Settlements(calls);
      var u := w.turns(|tried| - 1).outcome.usage;
      && (g.hasRes ==> g.hasProd)
      && (!g.hasProd || requestId == "" ==> rows == [] && settles == [])
      && (g.hasProd && requestId != "" ==>
            && |rows| == 1 && |settles| == 1
            && settles[0].requestId == rows[0].requestId == requestId && settles[0].user == rows[0].user == c.user
            && settles[0].tokens == rows[0].tokens == Tokens(u.input, u.output, u.cacheRead, 0)
            && !rows[0].stream && rows[0].statusCode == 200 && rows[0].errorCode == ""
            && Metering.Engine.Charge(settles[0]).amount == rows[0].totalCost
                 == CostOf(w.resolution.price, c.groupRate * w.catalog.value.rate(out.attempt.channel.id), u))
      && Frozen(calls) == if Reserves(g, c, req, w) then EstimateFor(c, req, w) else 0.0
  {
    var before, after := Opening(g, c, req, requestId, w), Closing(g, c, req, requestId, w, tried, out);
    OpeningCalls(g, c, req, requestId, w);
    if after == [] {
      assert before + after == before;
    } else {
      TwoEmits(before, after[0], after[1]);
      assert before + after == before + [after[0], after[1]];
      ChargeIsCost(w.resolution.price, c.groupRate, w.catalog.value.rate(out.attempt.channel.id),
          w.turns(|tried| - 1).outcome.usage);
    }
  }

  lemma TwoEmits(before: seq<Call>, a: Call, b: Call)
    requires a.Emit? && a.send.SendUsage? && b.Emit? && b.send.SendSettle?
    ensures
      var calls := before + [a, b];
      && Frozen(calls) == Frozen(before)
      && Settlements(calls) == Settlements(before) + [b.send.payload]
      && UsageRows(calls) == UsageRows(before) + [a.send.row]
  {
    CallSnoc(before, a);
    CallSnoc(before + [a], b);
    assert before + [a, b] == before + [a] + [b];
  }
}
