/** The same transactions statement by statement, as the repository runs them, with rollback on failure. */
module LedgerStore {
  import opened Sequences
  import opened Ledger

  function FailureOf(out: Outcome): Option<Failure> {
    match out
    case Done(_) => None
    case Failed(f) => Some(f)
  }

  class Store {
    var accounts: map<int, Account>
    var ledger: seq<Row>
    var orders: map<string, Order>

    ghost function State(): Db
      reads this
    {
      Db(accounts, ledger, orders)
    }

    /** CHECK (balance >= 0) on every row of user_balances. */
    ghost predicate Valid()
      reads this
    {
      forall u :: u in accounts ==> accounts[u].balance >= 0.0
    }

    constructor ()
      ensures Valid() && State() == EMPTY_DB
    {
      accounts, ledger, orders := map[], [], map[];
    }

    /** INSERT INTO billing_ledger under the column width and the two partial unique indexes. */
    method InsertRow(row: Row) returns (failure: Option<Failure>)
      modifies this`ledger
      ensures failure == if |row.requestId| > MAX_REQUEST_ID then Some(ValueTooLong)
                         else if row.balanceAfter < 0.0 then Some(CheckViolation)
                         else if (row.kind.Settle? || row.kind.Refund?) && HasRow(old(ledger), row.kind, row.requestId)
                             then Some(UniqueViolation)
                         else None
      ensures ledger == if failure == None then old(ledger) + [row] else old(ledger)
    {
      if |row.requestId| > MAX_REQUEST_ID {
        return Some(ValueTooLong);
      }
      if row.balanceAfter < 0.0 {
        return Some(CheckViolation);
      }
      if row.kind.Settle? || row.kind.Refund? {
        for i := 0 to |ledger|
          invariant ledger == old(ledger)
          invariant !HasRow(ledger[..i], row.kind, row.requestId)
        {
          if ledger[i].kind == row.kind && ledger[i].requestId == row.requestId {
            return Some(UniqueViolation);
          }
        }
        assert ledger[..|ledger|] == ledger;
      }
      ledger := ledger + [row];
      failure := None;
    }

    method FetchBalance(user: int) returns (bal: Option<Money>)
      ensures bal == if user in accounts then Some(accounts[user].balance) else None
    {
      bal := if user in accounts then Some(accounts[user].balance) else None;
    }

    /** Settlement: full charge under a conditional update, else clear the balance and book the overdraft;
        a unique violation rolls everything back and counts as success. */
    method ApplySettleTx(user: int, requestId: string, amount: Money) returns (failure: Option<Failure>)
      requires Valid()
      modifies this
      ensures Valid()
      ensures State() == SettleTx(old(State()), user, requestId, amount).0
      ensures failure == FailureOf(SettleTx(old(State()), user, requestId, amount).1)
    {
      if amount == 0.0 {
        return None;
      }
      var saved := accounts;
      var affected := 0;
      if user in accounts && accounts[user].balance >= amount {
        var a := accounts[user];
        accounts := accounts[user := Account(a.balance - amount, a.recharged, a.consumed + amount, a.version + 1)];
        affected := 1;
      }
      var row := Row(user, Settle, 0.0, 0.0, 0.0, requestId, None);
      var bal := FetchBalance(user);
      if bal == None {
        return Some(NoBalanceRow);
      }
      if affected == 1 {
        row := row.(amount := -amount, balanceAfter := bal.value);
      } else {
        var a := accounts[user];
        accounts := accounts[user := Account(0.0, a.recharged, a.consumed + bal.value, a.version + 1)];
        row := row.(amount := -bal.value, overdraft := amount - bal.value, balanceAfter := 0.0);
      }
      var inserted := InsertRow(row);
      if inserted != None {
        accounts := saved;
        failure := if inserted == Some(UniqueViolation) then None else inserted;
        return;
      }
      failure := None;
    }

    method ApplyRefundTx(user: int, requestId: string, amount: Money) returns (failure: Option<Failure>)
      requires Valid()
      modifies this
      ensures Valid()
      ensures State() == RefundTx(old(State()), user, requestId, amount).0
      ensures failure == FailureOf(RefundTx(old(State()), user, requestId, amount).1)
    {
      var saved := accounts;
      if user in accounts {
        var a := accounts[user];
        if a.balance + amount < 0.0 {
          return Some(CheckViolation);
        }
        accounts := accounts[user := Account(a.balance + amount, a.recharged, a.consumed, a.version + 1)];
      }
      var bal := FetchBalance(user);
      if bal == None {
        return Some(NoBalanceRow);
      }
      var inserted := InsertRow(Row(user, Refund, amount, 0.0, bal.value, requestId, None));
      if inserted != None {
        accounts := saved;
        failure := if inserted == Some(UniqueViolation) then None else inserted;
        return;
      }
      failure := None;
    }

    /** Manual adjustment: a conditional update that can never leave the balance negative. */
    method ManualBalanceAdjust(user: int, amount: Money) returns (failure: Option<Failure>)
      requires Valid()
      modifies this
      ensures Valid()
      ensures State() == AdjustTx(old(State()), user, amount).0
      ensures failure == FailureOf(AdjustTx(old(State()), user, amount).1)
    {
      if amount == 0.0 {
        return Some(BadInput);
      }
      if user !in accounts || accounts[user].balance + amount < 0.0 {
        return Some(NegativeBalance);
      }
      accounts := accounts[user := accounts[user].(balance := accounts[user].balance + amount)];
      var bal := FetchBalance(user);
      failure := InsertRow(Row(user, Adjust, amount, 0.0, bal.value, "", None));
    }

    /** Payment confirmation: compare-and-set on the order, lazy balance row, credit and ledger row. */
    method ConfirmPayment(orderNo: string, tradeNo: string) returns (applied: bool, failure: Option<Failure>)
      requires Valid()
      modifies this
      ensures Valid()
      ensures State() == ConfirmTx(old(State()), orderNo, tradeNo).0
      ensures failure == FailureOf(ConfirmTx(old(State()), orderNo, tradeNo).1)
      ensures applied <==> ConfirmTx(old(State()), orderNo, tradeNo).1 == Done(true)
    {
      applied, failure := false, None;
      if orderNo == "" || tradeNo == "" {
        return false, Some(BadInput);
      }
      if orderNo !in orders {
        return false, Some(NotFound);
      }
      var savedAccounts, savedOrders := accounts, orders;
      var o := orders[orderNo];
      if o.status != Pending || o.tradeNo != "" {
        if o.status == Paid && o.tradeNo == tradeNo {
          return false, None;
        }
        return false, Some(OrderState);
      }
      if |tradeNo| > MAX_TRADE_NO {
        return false, Some(ValueTooLong);
      }
      if TradeTaken(orders, orderNo, tradeNo) {
        return false, Some(UniqueViolation);
      }
      orders := orders[orderNo := Order(o.id, o.user, o.amount, o.amount, Paid, tradeNo)];
      if o.user !in accounts {
        accounts := accounts[o.user := EMPTY_ACCOUNT];
      }
      var a := accounts[o.user];
      if a.balance + o.amount < 0.0 {
        accounts, orders := savedAccounts, savedOrders;
        return false, Some(CheckViolation);
      }
      accounts := accounts[o.user := Account(a.balance + o.amount, a.recharged + o.amount, a.consumed, a.version + 1)];
      var bal := FetchBalance(o.user);
      failure := InsertRow(Row(o.user, Recharge, o.amount, 0.0, bal.value, "", Some(o.id)));
      applied := true;
    }
  }
}
