/** When each transaction goes through, read off the tables, and what it then leaves. */
module Outcomes {
  import opened Sequences
  import opened Ledger

  // ── payment confirmations ──────────────────────────────────────────────────

  /** The order waits for its payment, no other order was paid with this trade number, and crediting it does
      not leave the customer in debt.  Whether the customer has a balance row does not matter. */
  predicate Awaits(db: Db, orderNo: string, tradeNo: string) {
    && orderNo != "" && 0 < |tradeNo| <= MAX_TRADE_NO
    && orderNo in db.orders && db.orders[orderNo].status == Pending && db.orders[orderNo].tradeNo == ""
    && (forall no :: no in db.orders && no != orderNo ==> db.orders[no].tradeNo != tradeNo)
    && AccountOf(db, db.orders[orderNo].user).balance + db.orders[orderNo].amount >= 0.0
  }

  predicate PaidWith(db: Db, orderNo: string, tradeNo: string) {
    orderNo in db.orders && db.orders[orderNo].status == Paid && db.orders[orderNo].tradeNo == tradeNo
  }

  /** A confirmation credits exactly the order that waits for it, with or without a balance row; it repeats an
      earlier one exactly when the order was paid with this very number; and any other is refused. */
  lemma ConfirmIff(db: Db, orderNo: string, tradeNo: string)
    ensures
      var out := ConfirmTx(db, orderNo, tradeNo).1;
      && (out == Done(true) <==> Awaits(db, orderNo, tradeNo))
      && (out == Done(false) <==> orderNo != "" && tradeNo != "" && PaidWith(db, orderNo, tradeNo))
      && (out.Failed? <==> out != Done(true) && out != Done(false))
  {
  }

  /** What the credit leaves: the order paid with this number, and its customer, whose row is there from now
      on, richer by its amount; nobody else's row is touched. */
  lemma ConfirmCreditsOrder(db: Db, orderNo: string, tradeNo: string)
    requires Awaits(db, orderNo, tradeNo)
    ensures
      var db', o := ConfirmTx(db, orderNo, tradeNo).0, db.orders[orderNo];
      var a, a' := AccountOf(db, o.user), AccountOf(db', o.user);
      && db'.accounts.Keys == db.accounts.Keys + {o.user}
      && a'.balance == a.balance + o.amount && a'.recharged == a.recharged + o.amount && a'.consumed == a.consumed
      && PaidWith(db', orderNo, tradeNo) && db'.orders[orderNo].credited == o.amount
      && db'.orders.Keys == db.orders.Keys
      && (forall no :: no in db.orders && no != orderNo ==> db'.orders[no] == db.orders[no])
      && (forall u :: u in db.accounts && u != o.user ==> db'.accounts[u] == db.accounts[u])
  {
  }

  lemma PaidStays(db: Db, op: Op, orderNo: string)
    requires orderNo in db.orders && db.orders[orderNo].status == Paid
    ensures orderNo in Exec(db, op).0.orders && Exec(db, op).0.orders[orderNo] == db.orders[orderNo]
  {
  }

  lemma {:induction false} PaidThroughout(db: Db, ops: seq<Op>, orderNo: string)
    requires orderNo in db.orders && db.orders[orderNo].status == Paid && OrdersBooked(db)
    ensures orderNo in Run(db, ops).orders && Run(db, ops).orders[orderNo] == db.orders[orderNo]
    ensures OrdersBooked(Run(db, ops))
  {
    if ops != [] {
      var mid := Run(db, ops[..|ops| - 1]);
      PaidThroughout(db, ops[..|ops| - 1], orderNo);
      PaidStays(mid, ops[|ops| - 1], orderNo);
      ExecKeepsOrders(mid, ops[|ops| - 1]);
    }
  }

  /** Once an order is credited, whatever else happens: the same confirmation is accepted again and changes
      nothing, and any other for the order, or with its trade number, is refused. */
  lemma ConfirmedForGood(db: Db, orderNo: string, tradeNo: string, ops: seq<Op>, no: string, trade: string)
    requires OrdersBooked(db) && ConfirmTx(db, orderNo, tradeNo).1 == Done(true)
    ensures
      var later := Run(ConfirmTx(db, orderNo, tradeNo).0, ops);
      && ConfirmTx(later, orderNo, tradeNo) == (later, Done(false))
      && ((no == orderNo) != (trade == tradeNo) ==>
            ConfirmTx(later, no, trade).0 == later && ConfirmTx(later, no, trade).1.Failed?)
  {
    var paid := ConfirmTx(db, orderNo, tradeNo).0;
    ConfirmKeepsOrders(db, orderNo, tradeNo);
    PaidThroughout(paid, ops, orderNo);
    var later := Run(paid, ops);
    assert later.orders[orderNo] == paid.orders[orderNo];
    ConfirmIff(later, no, trade);
    assert no in later.orders && no != orderNo ==> later.orders[no].tradeNo != later.orders[orderNo].tradeNo;
  }

  // ── the other transactions ─────────────────────────────────────────────────

  /** The customer has a balance row and the request id fits its column. */
  predicate Bookable(db: Db, user: int, requestId: string) {
    user in db.accounts && |requestId| <= MAX_REQUEST_ID
  }

  /** A settlement succeeds exactly when it costs nothing or can be booked, its row being there already or
      not; it writes one exactly when it costs something and none is there. */
  lemma SettleIff(db: Db, user: int, requestId: string, amount: Money)
    ensures
      var out := SettleTx(db, user, requestId, amount).1;
      && (!out.Failed? <==> amount == 0.0 || Bookable(db, user, requestId))
      && (out == Done(true) <==>
            amount != 0.0 && Bookable(db, user, requestId) && !HasRow(db.ledger, Settle, requestId))
  {
  }

  /** A refund that does not take money away succeeds exactly when it can be booked, its row being there
      already or not, and credits exactly when none is there. */
  lemma RefundIff(db: Db, user: int, requestId: string, amount: Money)
    requires amount >= 0.0 && (user in db.accounts ==> db.accounts[user].balance >= 0.0)
    ensures
      var (db', out) := RefundTx(db, user, requestId, amount);
      && (!out.Failed? <==> Bookable(db, user, requestId))
      && (out == Done(true) <==> Bookable(db, user, requestId) && !HasRow(db.ledger, Refund, requestId))
      && (out == Done(true) ==>
            AccountOf(db', user) == AccountOf(db, user).(balance := AccountOf(db, user).balance + amount,
                                                         version := AccountOf(db, user).version + 1))
  {
  }

  /** A manual adjustment goes through exactly when it moves something, the customer has a balance row and it
      leaves no debt; it moves the balance and nothing else of the row. */
  lemma AdjustIff(db: Db, user: int, amount: Money)
    ensures
      var (db', out) := AdjustTx(db, user, amount);
      && (out == Done(true) <==>
            amount != 0.0 && user in db.accounts && db.accounts[user].balance + amount >= 0.0)
      && (out == Done(true) ==>
            AccountOf(db', user) == AccountOf(db, user).(balance := AccountOf(db, user).balance + amount))
      && (out != Done(true) ==> out.Failed? && db' == db)
  {
  }

  /** A balance row is created once; an order exactly when its number and its key are new, and then it waits
      for any payment whose number is free. */
  lemma CreatedIff(db: Db, user: int, orderNo: string, id: int, amount: Money)
    ensures
      var (db', out) := EnsureTx(db, user);
      && user in db'.accounts && AccountOf(db', user) == AccountOf(db, user)
      && (out == Done(true) <==> user !in db.accounts)
    ensures
      var (db', out) := OrderTx(db, orderNo, id, user, amount);
      && (out == Done(true) <==> orderNo !in db.orders && forall no :: no in db.orders ==> db.orders[no].id != id)
      && (out == Done(true) && orderNo != "" && AccountOf(db, user).balance + amount >= 0.0 ==>
            forall trade ::
              0 < |trade| <= MAX_TRADE_NO && (forall no :: no in db.orders ==> db.orders[no].tradeNo != trade) ==>
              Awaits(db', orderNo, trade))
  {
  }
}
