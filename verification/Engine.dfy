/** The worker's handlers, step by step, against the tables, L2 and the balance cache. */
module Engine {
  import opened Sequences
  import opened Ledger
  import opened Billing
  import opened LedgerStore
  import opened Delivery

  /** A settlement's amount is recomputed from the frozen prices; the payload carries none. */
  function Charge(p: SettlePayload): Task {
    SettleTask(p.requestId, p.user, ComputeCost(p.snapshot, p.tokens, false))
  }

  function UsageKey(p: UsagePayload): IdemKey {
    IdemKey("usage", p.requestId)
  }

  class Handlers {
    const store: Store
    var records: map<IdemKey, int>
    var now: int
    var cached: set<int>
    var usage: seq<UsagePayload>

    ghost function World(): World
      reads this, store
    {
      Delivery.World(store.State(), records, now, cached)
    }

    constructor (store: Store, now: int)
      ensures this.store == store && this.records == map[] && this.cached == {} && this.usage == [] && this.now == now
    {
      this.store := store;
      this.now := now;
      records, cached, usage := map[], {}, [];
    }

    method GetIdempotency(k: IdemKey) returns (found: bool)
      ensures found <==> k in records && records[k] > now
    {
      found := k in records && records[k] > now;
    }

    /** Upsert of an L2 record; a key wider than its column is an error. */
    method PutIdempotency(k: IdemKey) returns (ok: bool)
      modifies this`records
      ensures ok <==> |k.key| <= MAX_IDEM_KEY
      ensures records == if ok then old(records)[k := now + IDEM_TTL] else old(records)
    {
      ok := |k.key| <= MAX_IDEM_KEY;
      if ok {
        records := records[k := now + IDEM_TTL];
      }
    }

    method ReleaseReserve(user: int)
      modifies this`cached
      ensures cached == old(cached) - {user}
    {
      cached := cached - {user};
    }

    method HandleSettle(p: SettlePayload, fault: Fault) returns (ok: bool)
      requires store.Valid()
      modifies this, store
      ensures store.Valid() && usage == old(usage)
      ensures World() == Deliver(old(World()), Charge(p), fault).0
      ensures ok == Deliver(old(World()), Charge(p), fault).1
    {
      ghost var t := Charge(p);
      if p.requestId == "" || p.user <= 0 {
        return false;
      }
      if fault == BeforeCommit {
        return false;
      }
      var key := IdemKey("settle", "settle:" + p.requestId);
      var hit := GetIdempotency(key);
      if hit {
        return true;
      }
      var amount := ComputeCost(p.snapshot, p.tokens, false);
      if amount < 0.0 {
        return false;
      }
      var failure := store.ApplySettleTx(p.user, p.requestId, amount);
      if failure != None {
        return false;
      }
      if fault == AfterCommit {
        return false;
      }
      ok := PutIdempotency(key);
      if !ok {
        return false;
      }
      if fault == AfterRecord {
        return false;
      }
      ReleaseReserve(p.user);
      ok := true;
    }

    method HandleRefund(requestId: string, user: int, amount: Money, fault: Fault) returns (ok: bool)
      requires store.Valid()
      modifies this, store
      ensures store.Valid() && usage == old(usage)
      ensures World() == Deliver(old(World()), RefundTask(requestId, user, amount), fault).0
      ensures ok == Deliver(old(World()), RefundTask(requestId, user, amount), fault).1
    {
      if requestId == "" || user <= 0 || amount < 0.0 {
        return false;
      }
      if fault == BeforeCommit {
        return false;
      }
      var key := IdemKey("refund", "refund:" + requestId);
      var hit := GetIdempotency(key);
      if hit {
        return true;
      }
      if !(amount > 0.0) {
        return true;
      }
      var failure := store.ApplyRefundTx(user, requestId, amount);
      if failure != None {
        return false;
      }
      if fault == AfterCommit {
        return false;
      }
      ok := PutIdempotency(key);
      if !ok {
        return false;
      }
      if fault == AfterRecord {
        return false;
      }
      ReleaseReserve(user);
      ok := true;
    }

    /** Usage rows have no unique key: only L2 stands between a redelivery and a second row. */
    method HandleUsageWrite(p: UsagePayload, fault: Fault) returns (ok: bool)
      modifies this`usage, this`records
      ensures
        var (w, r) := WriteUsage(Usage(old(usage), old(UsageKey(p) in records && records[UsageKey(p)] > now)), p,
            fault);
        && usage == w.rows && ok == r
        && (w.recorded <==> UsageKey(p) in records && records[UsageKey(p)] > now)
      ensures forall k :: k != UsageKey(p) ==>
              (k in records <==> k in old(records)) && (k in records ==> records[k] == old(records)[k])
    {
      if p.requestId == "" || p.user <= 0 {
        return false;
      }
      if fault == BeforeCommit {
        return false;
      }
      var hit := GetIdempotency(UsageKey(p));
      if hit {
        return true;
      }
      if |p.requestId| > MAX_REQUEST_ID {
        return false;
      }
      usage := usage + [p];
      if fault == AfterCommit {
        return false;
      }
      ok := PutIdempotency(UsageKey(p));
      if fault == AfterRecord {
        return false;
      }
    }

    /** Payment confirmation: only the delivery that credits the order drops the balance cache. */
    method HandleConfirm(orderNo: string, tradeNo: string, fault: Fault) returns (ok: bool)
      requires store.Valid()
      modifies this, store
      ensures store.Valid() && usage == old(usage)
      ensures
        var (db, out) := ConfirmTx(old(store.State()), orderNo, tradeNo);
        && store.State() == (if fault == BeforeCommit then old(store.State()) else db)
        && (ok <==> fault != BeforeCommit && !out.Failed? && (fault == Complete || out == Done(false)))
        && cached == (if fault == Complete && out == Done(true) && db.orders[orderNo].user > 0
                      then old(cached) - {db.orders[orderNo].user} else old(cached))
        && records == (if out == Done(true) && (fault == Complete || fault == AfterRecord)
                       then old(records)[IdemKey("payconfirm", tradeNo) := now + IDEM_TTL] else old(records))
    {
      if fault == BeforeCommit {
        return false;
      }
      var applied, failure := store.ConfirmPayment(orderNo, tradeNo);
      if failure != None {
        return false;
      }
      if !applied {
        return true;
      }
      if fault == AfterCommit {
        return false;
      }
      var _ := PutIdempotency(IdemKey("payconfirm", tradeNo));
      if fault == AfterRecord {
        return false;
      }
      var uid := 0;
      if orderNo in store.orders {
        uid := store.orders[orderNo].user;
      }
      if uid > 0 {
        ReleaseReserve(uid);
      }
      ok := true;
    }
  }

  /** The usage table, and whether L2 currently answers for the request at hand. */
  datatype Usage = Usage(rows: seq<UsagePayload>, recorded: bool)

  function WriteUsage(u: Usage, p: UsagePayload, fault: Fault): (Usage, bool) {
    if p.requestId == "" || p.user <= 0 || fault == BeforeCommit then (u, false)
    else if u.recorded then (u, true)
    else if |p.requestId| > MAX_REQUEST_ID then (u, false)
    else if fault == AfterCommit then (u.(rows := u.rows + [p]), false)
    else (Usage(u.rows + [p], true), fault == Complete)
  }

  /** A usage delivery writes its row exactly when the payload is complete, its id fits, L2 does not answer and it
      gets as far as the insert; the record follows unless it stops in between; and it is acknowledged when L2
      answered or nothing stopped it. */
  lemma UsageWrittenIff(u: Usage, p: UsagePayload, fault: Fault)
    ensures
      var (u', ok) := WriteUsage(u, p, fault);
      var starts := p.requestId != "" && p.user > 0 && fault != BeforeCommit;
      var writes := starts && !u.recorded && |p.requestId| <= MAX_REQUEST_ID;
      && u'.rows == (if writes then u.rows + [p] else u.rows)
      && (u'.recorded <==> u.recorded || (writes && fault != AfterCommit))
      && (ok <==> (starts && u.recorded) || (writes && fault == Complete))
  {
  }
}
