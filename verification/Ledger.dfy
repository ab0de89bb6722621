/**
 The money tables (user_balances, billing_ledger, payment_orders) and the transactions that write
 them, each as one atomic function from database to database.  A transaction that does not commit
 returns the database it was given.
 */
module Ledger {
  import opened Sequences

  type Money = real

  /** Column widths of billing_ledger.request_id (and usage_logs.request_id),
      payment_orders.provider_trade_no and idempotency_key. */
  const MAX_REQUEST_ID := 64
  const MAX_TRADE_NO := 128
  const MAX_IDEM_KEY := 128

  datatype Kind = Settle | Refund | Recharge | Adjust

  datatype Row = Row(
    user: int,
    kind: Kind,
    amount: Money,
    overdraft: Money,
    balanceAfter: Money,
    requestId: string,
    orderId: Option<int>)

  datatype Account = Account(balance: Money, recharged: Money, consumed: Money, version: nat)

  datatype Status = Pending | Paid

  datatype Order = Order(id: int, user: int, amount: Money, credited: Money, status: Status, tradeNo: string)

  datatype Db = Db(accounts: map<int, Account>, ledger: seq<Row>, orders: map<string, Order>)

  datatype Failure =
    | NoBalanceRow
    | NegativeBalance
    | OrderState
    | NotFound
    | UniqueViolation
    | CheckViolation
    | ValueTooLong
    | BadInput

  /** Done(true): this call wrote the row.  Done(false): accepted, nothing to write. */
  datatype Outcome = Done(applied: bool) | Failed(failure: Failure)

  const EMPTY_ACCOUNT := Account(0.0, 0.0, 0.0, 0)
  const EMPTY_DB := Db(map[], [], map[])

  /** The two partial unique indexes: some row of this kind already carries the request id. */
  predicate HasRow(ledger: seq<Row>, kind: Kind, requestId: string) {
    exists i :: 0 <= i < |ledger| && ledger[i].kind == kind && ledger[i].requestId == requestId
  }

  function SettleTx(db: Db, user: int, requestId: string, amount: Money): (Db, Outcome) {
    if amount == 0.0 then (db, Done(false))
    else if user !in db.accounts then (db, Failed(NoBalanceRow))
    else if |requestId| > MAX_REQUEST_ID then (db, Failed(ValueTooLong))
    else if HasRow(db.ledger, Settle, requestId) then (db, Done(false))
    else
      var a := db.accounts[user];
      var charged := if a.balance >= amount then amount else a.balance;
      var a' := a.(balance := a.balance - charged, consumed := a.consumed + charged, version := a.version + 1);
      var row := Row(user, Settle, -charged, amount - charged, a'.balance, requestId, None);
      (db.(accounts := db.accounts[user := a'], ledger := db.ledger + [row]), Done(true))
  }

  function RefundTx(db: Db, user: int, requestId: string, amount: Money): (Db, Outcome) {
    if user !in db.accounts then (db, Failed(NoBalanceRow))
    else if db.accounts[user].balance + amount < 0.0 then (db, Failed(CheckViolation))
    else if |requestId| > MAX_REQUEST_ID then (db, Failed(ValueTooLong))
    else if HasRow(db.ledger, Refund, requestId) then (db, Done(false))
    else
      var a := db.accounts[user];
      var a' := a.(balance := a.balance + amount, version := a.version + 1);
      var row := Row(user, Refund, amount, 0.0, a'.balance, requestId, None);
      (db.(accounts := db.accounts[user := a'], ledger := db.ledger + [row]), Done(true))
  }

  function AdjustTx(db: Db, user: int, amount: Money): (Db, Outcome) {
    if amount == 0.0 then (db, Failed(BadInput))
    else if user !in db.accounts || db.accounts[user].balance + amount < 0.0 then (db, Failed(NegativeBalance))
    else
      var a := db.accounts[user];
      var a' := a.(balance := a.balance + amount);
      var row := Row(user, Adjust, amount, 0.0, a'.balance, "", None);
      (db.(accounts := db.accounts[user := a'], ledger := db.ledger + [row]), Done(true))
  }

  /** The unique index on non-empty trade numbers, seen from order orderNo. */
  predicate TradeTaken(orders: map<string, Order>, orderNo: string, tradeNo: string) {
    exists no :: no in orders && no != orderNo && orders[no].tradeNo == tradeNo
  }

  function AccountOf(db: Db, user: int): Account {
    if user in db.accounts then db.accounts[user] else EMPTY_ACCOUNT
  }

  function ConfirmTx(db: Db, orderNo: string, tradeNo: string): (Db, Outcome) {
    if orderNo == "" || tradeNo == "" then (db, Failed(BadInput))
    else if orderNo !in db.orders then (db, Failed(NotFound))
    else
      var o := db.orders[orderNo];
      if o.status != Pending || o.tradeNo != "" then
        if o.status == Paid && o.tradeNo == tradeNo then (db, Done(false)) else (db, Failed(OrderState))
      else if |tradeNo| > MAX_TRADE_NO then (db, Failed(ValueTooLong))
      else if TradeTaken(db.orders, orderNo, tradeNo) then (db, Failed(UniqueViolation))
      else
        var a := AccountOf(db, o.user);
        if a.balance + o.amount < 0.0 then (db, Failed(CheckViolation))
        else
          var a' := Account(a.balance + o.amount, a.recharged + o.amount, a.consumed, a.version + 1);
          var row := Row(o.user, Recharge, o.amount, 0.0, a'.balance, "", Some(o.id));
          var o' := o.(status := Paid, tradeNo := tradeNo, credited := o.amount);
          (Db(db.accounts[o.user := a'], db.ledger + [row], db.orders[orderNo := o']), Done(true))
  }

  /** Lazy creation of a zero balance row (EnsureBalance). */
  function EnsureTx(db: Db, user: int): (Db, Outcome) {
    if user in db.accounts then (db, Done(false))
    else (db.(accounts := db.accounts[user := EMPTY_ACCOUNT]), Done(true))
  }

  /** A new pending order; id is the primary key the database assigned. */
  function OrderTx(db: Db, orderNo: string, id: int, user: int, amount: Money): (Db, Outcome) {
    if orderNo in db.orders || exists no :: no in db.orders && db.orders[no].id == id then (db, Failed(UniqueViolation))
    else (db.(orders := db.orders[orderNo := Order(id, user, amount, 0.0, Pending, "")]), Done(true))
  }

  datatype Op =
    | SettleOp(user: int, requestId: string, amount: Money)
    | RefundOp(user: int, requestId: string, amount: Money)
    | AdjustOp(user: int, amount: Money)
    | ConfirmOp(orderNo: string, tradeNo: string)
    | EnsureOp(user: int)
    | OrderOp(orderNo: string, id: int, user: int, amount: Money)

  function Exec(db: Db, op: Op): (Db, Outcome) {
    match op
    case SettleOp(u, r, x) => SettleTx(db, u, r, x)
    case RefundOp(u, r, x) => RefundTx(db, u, r, x)
    case AdjustOp(u, x) => AdjustTx(db, u, x)
    case ConfirmOp(o, t) => ConfirmTx(db, o, t)
    case EnsureOp(u) => EnsureTx(db, u)
    case OrderOp(o, id, u, x) => OrderTx(db, o, id, u, x)
  }

  function Run(db: Db, ops: seq<Op>): Db {
    if ops == [] then db else Exec(Run(db, ops[..|ops| - 1]), ops[|ops| - 1]).0
  }

  lemma RunSnoc(db: Db, ops: seq<Op>, op: Op)
    ensures Run(db, ops + [op]) == Exec(Run(db, ops), op).0
  {
    assert (ops + [op])[..|ops|] == ops;
  }

  // ── the books ──────────────────────────────────────────────────────────────

  /** Sum of the signed amounts of one user's rows. */
  function Total(ledger: seq<Row>, user: int): Money {
    if ledger == [] then 0.0
    else
      var row := ledger[|ledger| - 1];
      Total(ledger[..|ledger| - 1], user) + if row.user == user then row.amount else 0.0
  }

  /** The same sum over the rows of one kind. */
  function TotalOf(ledger: seq<Row>, user: int, kind: Kind): Money {
    if ledger == [] then 0.0
    else
      var row := ledger[|ledger| - 1];
      TotalOf(ledger[..|ledger| - 1], user, kind) + if row.user == user && row.kind == kind then row.amount else 0.0
  }

  /** How many of one user's rows are of a kind that bumps the optimistic-lock version. */
  function Versioned(ledger: seq<Row>, user: int): nat {
    if ledger == [] then 0
    else
      var row := ledger[|ledger| - 1];
      Versioned(ledger[..|ledger| - 1], user) + if row.user == user && row.kind != Adjust then 1 else 0
  }

  ghost predicate AccountBooked(ledger: seq<Row>, user: int, a: Account) {
    && 0.0 <= a.balance == Total(ledger, user)
    && a.consumed == -TotalOf(ledger, user, Settle)
    && a.recharged == TotalOf(ledger, user, Recharge)
    && a.version == Versioned(ledger, user)
  }

  ghost predicate RowsBooked(ledger: seq<Row>) {
    forall i :: 0 <= i < |ledger| ==> 0.0 <= ledger[i].balanceAfter == Total(ledger[..i + 1], ledger[i].user)
  }

  /** What the partial unique indexes promise about the table as a whole. */
  ghost predicate RequestsUnique(ledger: seq<Row>) {
    forall i, j :: 0 <= i < j < |ledger| && ledger[i].kind == ledger[j].kind &&
        (ledger[i].kind.Settle? || ledger[i].kind.Refund?)
      ==> ledger[i].requestId != ledger[j].requestId
  }

  /** user_balances is the materialised ledger, for every user, after every row. */
  ghost predicate Booked(db: Db) {
    && (forall u :: u in db.accounts ==> AccountBooked(db.ledger, u, db.accounts[u]))
    && (forall i :: 0 <= i < |db.ledger| ==> db.ledger[i].user in db.accounts)
    && RowsBooked(db.ledger)
    && RequestsUnique(db.ledger)
  }

  lemma TotalSnoc(ledger: seq<Row>, row: Row, user: int)
    ensures Total(ledger + [row], user) == Total(ledger, user) + if row.user == user then row.amount else 0.0
    ensures forall k ::
              TotalOf(ledger + [row], user, k) ==
              TotalOf(ledger, user, k) + if row.user == user && row.kind == k then row.amount else 0.0
    ensures Versioned(ledger + [row], user) ==
            Versioned(ledger, user) + if row.user == user && row.kind != Adjust then 1 else 0
  {
    assert (ledger + [row])[..|ledger|] == ledger;
  }

  lemma {:induction false} NoRowsNoTotal(ledger: seq<Row>, user: int)
    requires forall i :: 0 <= i < |ledger| ==> ledger[i].user != user
    ensures Total(ledger, user) == 0.0
    ensures forall k :: TotalOf(ledger, user, k) == 0.0
    ensures Versioned(ledger, user) == 0
  {
    if ledger != [] {
      NoRowsNoTotal(ledger[..|ledger| - 1], user);
    }
  }

  /** The account a row was written for, against the longer ledger. */
  lemma OwnerBooked(ledger: seq<Row>, row: Row, a: Account, a': Account)
    requires AccountBooked(ledger, row.user, a)
    requires 0.0 <= a'.balance == a.balance + row.amount
    requires a'.consumed == a.consumed - (if row.kind == Settle then row.amount else 0.0)
    requires a'.recharged == a.recharged + (if row.kind == Recharge then row.amount else 0.0)
    requires a'.version == a.version + (if row.kind == Adjust then 0 else 1)
    ensures AccountBooked(ledger + [row], row.user, a')
  {
    TotalSnoc(ledger, row, row.user);
  }

  lemma OthersBooked(ledger: seq<Row>, row: Row, user: int, a: Account)
    requires AccountBooked(ledger, user, a) && user != row.user
    ensures AccountBooked(ledger + [row], user, a)
  {
    TotalSnoc(ledger, row, user);
  }

  lemma RowsStayBooked(ledger: seq<Row>, row: Row)
    requires RowsBooked(ledger) && 0.0 <= row.balanceAfter == Total(ledger, row.user) + row.amount
    ensures RowsBooked(ledger + [row])
  {
    var l := ledger + [row];
    forall i | 0 <= i < |l| ensures 0.0 <= l[i].balanceAfter == Total(l[..i + 1], l[i].user) {
      if i < |ledger| {
        assert l[..i + 1] == ledger[..i + 1];
      } else {
        assert l[..i + 1] == l;
        TotalSnoc(ledger, row, row.user);
      }
    }
  }

  lemma RequestsStayUnique(ledger: seq<Row>, row: Row)
    requires RequestsUnique(ledger)
    requires (row.kind.Settle? || row.kind.Refund? ==> !HasRow(ledger, row.kind, row.requestId))
    ensures RequestsUnique(ledger + [row])
  {
  }

  /** One more row together with the account it was written for keeps the books. */
  lemma AppendKeepsBooks(db: Db, db': Db, row: Row)
    requires Booked(db)
    requires db'.accounts == db.accounts[row.user := AccountOf(db', row.user)] && db'.ledger == db.ledger + [row]
    requires row.user in db'.accounts
    requires
      var a, a' := AccountOf(db, row.user), AccountOf(db', row.user);
      && 0.0 <= a'.balance == row.balanceAfter == a.balance + row.amount
      && a'.consumed == a.consumed - (if row.kind == Settle then row.amount else 0.0)
      && a'.recharged == a.recharged + (if row.kind == Recharge then row.amount else 0.0)
      && a'.version == a.version + (if row.kind == Adjust then 0 else 1)
    requires row.kind.Settle? || row.kind.Refund? ==> !HasRow(db.ledger, row.kind, row.requestId)
    ensures Booked(db')
  {
    if row.user !in db.accounts {
      NoRowsNoTotal(db.ledger, row.user);
    }
    assert AccountBooked(db.ledger, row.user, AccountOf(db, row.user));
    OwnerBooked(db.ledger, row, AccountOf(db, row.user), AccountOf(db', row.user));
    forall u | u in db'.accounts ensures AccountBooked(db'.ledger, u, db'.accounts[u]) {
      if u != row.user {
        OthersBooked(db.ledger, row, u, db.accounts[u]);
      }
    }
    RowsStayBooked(db.ledger, row);
    RequestsStayUnique(db.ledger, row);
  }

  /** Every transaction keeps user_balances equal to the ledger it is meant to materialise. */
  lemma ExecKeepsBooks(db: Db, op: Op)
    requires Booked(db)
    ensures Booked(Exec(db, op).0)
  {
    var (db', out) := Exec(db, op);
    if out == Done(true) {
      match op
      case EnsureOp(u) =>
        NoRowsNoTotal(db.ledger, u);
      case OrderOp(_, _, _, _) =>
      case _ =>
        AppendKeepsBooks(db, db', db'.ledger[|db.ledger|]);
    }
  }

  /** Over any run from the empty database, and any mix of transactions, the books hold. */
  lemma {:induction false} RunKeepsBooks(db: Db, ops: seq<Op>)
    requires Booked(db)
    ensures Booked(Run(db, ops))
  {
    if ops != [] {
      RunKeepsBooks(db, ops[..|ops| - 1]);
      ExecKeepsBooks(Run(db, ops[..|ops| - 1]), ops[|ops| - 1]);
    }
  }

  lemma LedgerMaterialised(ops: seq<Op>)
    ensures Booked(Run(EMPTY_DB, ops))
  {
    RunKeepsBooks(EMPTY_DB, ops);
  }

  lemma {:induction false} TotalSkips(ledger: seq<Row>, user: int, i: nat, j: nat)
    requires i <= j <= |ledger|
    requires forall k :: i <= k < j ==> ledger[k].user != user
    ensures Total(ledger[..j], user) == Total(ledger[..i], user)
  {
    if i < j {
      TotalSkips(ledger, user, i, j - 1);
      assert ledger[..j][..j - 1] == ledger[..j - 1];
    }
  }

  lemma RowChain(l: seq<Row>, i: nat, j: nat)
    requires RowsBooked(l) && i < j < |l| && l[i].user == l[j].user
    requires forall k :: i < k < j ==> l[k].user != l[j].user
    ensures l[j].balanceAfter == l[i].balanceAfter + l[j].amount
  {
    TotalSkips(l, l[j].user, i + 1, j);
    assert l[..j + 1] == l[..j] + [l[j]];
    TotalSnoc(l[..j], l[j], l[j].user);
  }

  /** A row's snapshot is the snapshot of that user's previous row plus its own amount. */
  lemma BalanceAfterChain(ops: seq<Op>, i: nat, j: nat)
    requires i < j < |Run(EMPTY_DB, ops).ledger|
    requires
      var l := Run(EMPTY_DB, ops).ledger;
      l[i].user == l[j].user && forall k :: i < k < j ==> l[k].user != l[j].user
    ensures
      var l := Run(EMPTY_DB, ops).ledger;
      l[j].balanceAfter == l[i].balanceAfter + l[j].amount
  {
    LedgerMaterialised(ops);
    RowChain(Run(EMPTY_DB, ops).ledger, i, j);
  }

  /** A transaction that fails, or finds its work already done, leaves every table as it was. */
  lemma UnappliedChangesNothing(db: Db, op: Op)
    ensures Exec(db, op).1 != Done(true) ==> Exec(db, op).0 == db
    ensures db.ledger <= Exec(db, op).0.ledger
    ensures forall u :: u in db.accounts ==> u in Exec(db, op).0.accounts
  {
  }

  /** Whose balance a transaction moves. */
  function UserOf(db: Db, op: Op): int {
    match op
    case ConfirmOp(no, _) => if no in db.orders then db.orders[no].user else 0
    case _ => op.user
  }

  /** The kind of row a transaction writes. */
  function RowKind(op: Op): Kind {
    match op
    case SettleOp(_, _, _) => Settle
    case RefundOp(_, _, _) => Refund
    case AdjustOp(_, _) => Adjust
    case _ => Recharge
  }

  predicate MovesMoney(op: Op) {
    !op.EnsureOp? && !op.OrderOp?
  }

  /** A committed transaction writes one row, for its own customer, and moves that balance by that row; a
      refund and an adjustment by exactly the amount asked, a confirmation by the order's amount, and only a
      settlement owing anything.  No other account, and no other order, changes. */
  lemma CommitMovesOneUser(db: Db, op: Op)
    requires Exec(db, op).1 == Done(true) && MovesMoney(op)
    ensures
      var db', u := Exec(db, op).0, UserOf(db, op);
      && |db'.ledger| == |db.ledger| + 1 && db.ledger <= db'.ledger
      && (var row := db'.ledger[|db.ledger|];
         && row.user == u && AccountOf(db', u).balance == AccountOf(db, u).balance + row.amount == row.balanceAfter
         && (op.RefundOp? || op.AdjustOp? ==> row.amount == op.amount)
         && (op.ConfirmOp? ==>
               row.amount == db.orders[op.orderNo].amount && row.orderId == Some(db.orders[op.orderNo].id))
         && row.requestId == (if op.SettleOp? || op.RefundOp? then op.requestId else "")
         && (!op.SettleOp? ==> row.overdraft == 0.0) && (!op.ConfirmOp? ==> row.orderId == None)
         && row.kind == RowKind(op))
      && (forall v :: v != u ==> AccountOf(db', v) == AccountOf(db, v))
      && (forall no :: no in db.orders && !(op.ConfirmOp? && no == op.orderNo) ==>
          no in db'.orders && db'.orders[no] == db.orders[no])
  {
  }

  /** What a settlement that commits means for the customer: the ledger row and the balance split the
      cost exactly into what was taken and what was left owing, and nothing is owed while money remains. */
  lemma SettleSplitsCost(db: Db, user: int, requestId: string, amount: Money)
    requires SettleTx(db, user, requestId, amount).1 == Done(true)
    requires AccountOf(db, user).balance >= 0.0
    ensures
      var db' := SettleTx(db, user, requestId, amount).0;
      var row := db'.ledger[|db.ledger|];
      && |db'.ledger| == |db.ledger| + 1
      && row.user == user && row.kind == Settle && row.requestId == requestId
      && row.overdraft - row.amount == amount
      && row.balanceAfter == AccountOf(db', user).balance == AccountOf(db, user).balance + row.amount
      && (amount >= 0.0 ==> row.overdraft >= 0.0 && row.amount <= 0.0)
      && (row.overdraft > 0.0 ==> row.balanceAfter == 0.0)
  {
  }

  // ── orders ─────────────────────────────────────────────────────────────────

  function RowsFor(ledger: seq<Row>, id: int): seq<Row> {
    if ledger == [] then []
    else
      var row := ledger[|ledger| - 1];
      RowsFor(ledger[..|ledger| - 1], id) + if row.kind == Recharge && row.orderId == Some(id) then [row] else []
  }

  /** Each order's recharge rows: none while pending, exactly one, for its credited amount, once paid. */
  ghost predicate OrderBooked(ledger: seq<Row>, o: Order) {
    match o.status
    case Pending => o.tradeNo == "" && o.credited == 0.0 && RowsFor(ledger, o.id) == []
    case Paid =>
      && o.tradeNo != "" && o.credited == o.amount
      && |RowsFor(ledger, o.id)| == 1
      && RowsFor(ledger, o.id)[0].user == o.user
      && RowsFor(ledger, o.id)[0].amount == o.credited
  }

  /** credited_amount summed over the given orders of one user. */
  ghost function Credited(orders: map<string, Order>, nos: set<string>, user: int): Money
    requires nos <= orders.Keys
  {
    if nos == {} then 0.0
    else
      var no :| no in nos;
      Credited(orders, nos - {no}, user) + CreditOf(orders[no], user)
  }

  function CreditOf(o: Order, user: int): Money {
    if o.user == user then o.credited else 0.0
  }

  ghost predicate OrdersBooked(db: Db) {
    && (forall no :: no in db.orders ==> OrderBooked(db.ledger, db.orders[no]))
    && (forall a, b :: a in db.orders && b in db.orders && a != b ==> db.orders[a].id != db.orders[b].id)
    && (forall a, b :: a in db.orders && b in db.orders && a != b && db.orders[a].tradeNo != "" ==>
        db.orders[a].tradeNo != db.orders[b].tradeNo)
    && (forall i :: 0 <= i < |db.ledger| && db.ledger[i].kind == Recharge ==>
        exists no :: no in db.orders && db.ledger[i].orderId == Some(db.orders[no].id))
    && (forall u :: AccountOf(db, u).recharged == Credited(db.orders, db.orders.Keys, u))
  }

  lemma {:induction false} CreditedSplit(orders: map<string, Order>, nos: set<string>, no: string, user: int)
    requires nos <= orders.Keys && no in nos
    ensures Credited(orders, nos, user) == Credited(orders, nos - {no}, user) + CreditOf(orders[no], user)
    decreases nos
  {
    var pick :| pick in nos &&
        Credited(orders, nos, user) == Credited(orders, nos - {pick}, user) + CreditOf(orders[pick], user);
    if pick != no {
      CreditedSplit(orders, nos - {pick}, no, user);
      CreditedSplit(orders, nos - {no}, pick, user);
      assert nos - {pick} - {no} == nos - {no} - {pick};
    }
  }

  lemma {:induction false} CreditedFrame(orders: map<string, Order>, orders': map<string, Order>, nos: set<string>,
      user: int)
    requires nos <= orders.Keys && nos <= orders'.Keys
    requires forall no :: no in nos ==> orders[no] == orders'[no]
    ensures Credited(orders, nos, user) == Credited(orders', nos, user)
    decreases nos
  {
    if nos != {} {
      var no :| no in nos;
      CreditedFrame(orders, orders', nos - {no}, user);
      CreditedSplit(orders, nos, no, user);
      CreditedSplit(orders', nos, no, user);
    }
  }

  /** Writing one order moves a user's credited sum by that order's change. */
  lemma CreditedUpdate(orders: map<string, Order>, no: string, o: Order, user: int)
    ensures
      var before := if no in orders then CreditOf(orders[no], user) else 0.0;
      var orders' := orders[no := o];
      Credited(orders', orders'.Keys, user) == Credited(orders, orders.Keys, user) - before + CreditOf(o, user)
  {
    var orders' := orders[no := o];
    CreditedSplit(orders', orders'.Keys, no, user);
    CreditedFrame(orders, orders', orders.Keys - {no}, user);
    assert orders'.Keys - {no} == orders.Keys - {no};
    if no in orders {
      CreditedSplit(orders, orders.Keys, no, user);
    } else {
      assert orders.Keys - {no} == orders.Keys;
    }
  }

  lemma RowsForSnoc(ledger: seq<Row>, row: Row, id: int)
    ensures RowsFor(ledger + [row], id) == RowsFor(ledger, id) + if row.kind == Recharge && row.orderId == Some(id)
            then [row] else []
  {
    assert (ledger + [row])[..|ledger|] == ledger;
  }

  lemma {:induction false} RowsForFresh(ledger: seq<Row>, id: int)
    requires forall i :: 0 <= i < |ledger| && ledger[i].kind == Recharge ==> ledger[i].orderId != Some(id)
    ensures RowsFor(ledger, id) == []
  {
    if ledger != [] {
      RowsForFresh(ledger[..|ledger| - 1], id);
    }
  }

  lemma ExecKeepsOrders(db: Db, op: Op)
    requires OrdersBooked(db)
    ensures OrdersBooked(Exec(db, op).0)
  {
    var (db', out) := Exec(db, op);
    if out == Done(true) {
      match op
      case OrderOp(no, id, u, x) => OrderKeepsOrders(db, no, id, u, x);
      case ConfirmOp(no, trade) => ConfirmKeepsOrders(db, no, trade);
      case EnsureOp(u) =>
        forall v ensures AccountOf(db', v).recharged == AccountOf(db, v).recharged {}
      case _ =>
        PlainRowKeepsOrders(db, db', db'.ledger[|db.ledger|]);
    }
  }

  /** A row that is no recharge leaves the orders booked. */
  lemma PlainRowKeepsOrders(db: Db, db': Db, row: Row)
    requires OrdersBooked(db) && db'.ledger == db.ledger + [row] && row.kind != Recharge && db'.orders == db.orders
    requires forall v :: AccountOf(db', v).recharged == AccountOf(db, v).recharged
    ensures OrdersBooked(db')
  {
    forall no | no in db.orders ensures OrderBooked(db'.ledger, db.orders[no]) {
      RowsForSnoc(db.ledger, row, db.orders[no].id);
    }
  }

  lemma OrderKeepsOrders(db: Db, no: string, id: int, user: int, amount: Money)
    requires OrdersBooked(db) && OrderTx(db, no, id, user, amount).1 == Done(true)
    ensures OrdersBooked(OrderTx(db, no, id, user, amount).0)
  {
    var db' := OrderTx(db, no, id, user, amount).0;
    RowsForFresh(db.ledger, id);
    forall v ensures AccountOf(db', v).recharged == Credited(db'.orders, db'.orders.Keys, v) {
      CreditedUpdate(db.orders, no, db'.orders[no], v);
    }
    forall i | 0 <= i < |db'.ledger| && db'.ledger[i].kind == Recharge
      ensures exists n :: n in db'.orders && db'.ledger[i].orderId == Some(db'.orders[n].id)
    {
      var n :| n in db.orders && db.ledger[i].orderId == Some(db.orders[n].id);
      assert n in db'.orders;
    }
  }

  /** The recharge row of a newly paid order books that order and leaves the others' rows alone. */
  lemma ConfirmBooksRows(db: Db, no: string, o': Order, row: Row)
    requires OrdersBooked(db) && no in db.orders && db.orders[no].status == Pending
    requires o' == db.orders[no].(status := Paid, tradeNo := o'.tradeNo, credited := o'.amount) && o'.tradeNo != ""
    requires row.kind == Recharge && row.orderId == Some(o'.id) && row.user == o'.user && row.amount == o'.amount
    ensures forall n :: n in db.orders ==> OrderBooked(db.ledger + [row], db.orders[no := o'][n])
  {
    forall n | n in db.orders ensures OrderBooked(db.ledger + [row], db.orders[no := o'][n]) {
      RowsForSnoc(db.ledger, row, db.orders[n].id);
      assert OrderBooked(db.ledger, db.orders[n]);
    }
  }

  /** total_recharged moves with the order that was paid. */
  lemma ConfirmCredits(db: Db, db': Db, no: string, o': Order, v: int)
    requires no in db.orders && db'.orders == db.orders[no := o'] && CreditOf(db.orders[no], v) == 0.0
    requires AccountOf(db, v).recharged == Credited(db.orders, db.orders.Keys, v)
    requires AccountOf(db', v).recharged == AccountOf(db, v).recharged + CreditOf(o', v)
    ensures AccountOf(db', v).recharged == Credited(db'.orders, db'.orders.Keys, v)
  {
    CreditedUpdate(db.orders, no, o', v);
  }

  /** Ids and trade numbers stay unique. */
  lemma ConfirmKeepsKeys(db: Db, orders': map<string, Order>, no: string, o': Order)
    requires OrdersBooked(db) && no in db.orders && orders' == db.orders[no := o']
    requires o'.id == db.orders[no].id && !TradeTaken(db.orders, no, o'.tradeNo)
    ensures forall a, b :: a in orders' && b in orders' && a != b ==> orders'[a].id != orders'[b].id
    ensures forall a, b :: a in orders' && b in orders' && a != b && orders'[a].tradeNo != "" ==>
            orders'[a].tradeNo != orders'[b].tradeNo
  {
  }

  lemma ConfirmKeepsOrders(db: Db, no: string, trade: string)
    requires OrdersBooked(db) && ConfirmTx(db, no, trade).1 == Done(true)
    ensures OrdersBooked(ConfirmTx(db, no, trade).0)
  {
    var db' := ConfirmTx(db, no, trade).0;
    var o' := db'.orders[no];
    ConfirmKeepsRest(db, db', no, o', db'.ledger[|db.ledger|]);
  }

  lemma ConfirmKeepsRest(db: Db, db': Db, no: string, o': Order, row: Row)
    requires OrdersBooked(db) && no in db.orders && db.orders[no].status == Pending
    requires !TradeTaken(db.orders, no, o'.tradeNo)
    requires o' == db.orders[no].(status := Paid, tradeNo := o'.tradeNo, credited := o'.amount) && o'.tradeNo != ""
    requires row.kind == Recharge && row.orderId == Some(o'.id) && row.user == o'.user && row.amount == o'.amount
    requires db'.orders == db.orders[no := o'] && db'.ledger == db.ledger + [row]
    requires forall v :: AccountOf(db', v).recharged == AccountOf(db, v).recharged + CreditOf(o', v)
    ensures OrdersBooked(db')
  {
    ConfirmBooksRows(db, no, o', row);
    ConfirmKeepsKeys(db, db'.orders, no, o');
    assert OrderBooked(db.ledger, db.orders[no]);
    forall v ensures AccountOf(db', v).recharged == Credited(db'.orders, db'.orders.Keys, v) {
      ConfirmCredits(db, db', no, o', v);
    }
    forall i | 0 <= i < |db'.ledger| && db'.ledger[i].kind == Recharge
      ensures exists n :: n in db'.orders && db'.ledger[i].orderId == Some(db'.orders[n].id)
    {
      RechargeHasOrder(db, db', no, i);
    }
  }

  lemma RechargeHasOrder(db: Db, db': Db, no: string, i: nat)
    requires OrdersBooked(db) && no in db.orders
    requires db'.orders.Keys == db.orders.Keys && forall n :: n in db.orders ==> db'.orders[n].id == db.orders[n].id
    requires |db'.ledger| == |db.ledger| + 1 && db'.ledger[..|db.ledger|] == db.ledger
    requires db'.ledger[|db.ledger|].orderId == Some(db.orders[no].id)
    requires i < |db'.ledger| && db'.ledger[i].kind == Recharge
    ensures exists n :: n in db'.orders && db'.ledger[i].orderId == Some(db'.orders[n].id)
  {
    if i < |db.ledger| {
      assert db'.ledger[i] == db.ledger[i];
      var n :| n in db.orders && db.ledger[i].orderId == Some(db.orders[n].id);
      assert n in db'.orders;
    } else {
      assert no in db'.orders;
    }
  }

  /** Over any run of duplicate, conflicting and interleaved confirmations: an order is credited exactly
      once when paid and never otherwise, a trade number pays at most one order, and a user's
      total_recharged is the sum over that user's orders of what was credited. */
  lemma {:induction false} PaymentsCreditOnce(ops: seq<Op>)
    ensures OrdersBooked(Run(EMPTY_DB, ops))
  {
    if ops != [] {
      PaymentsCreditOnce(ops[..|ops| - 1]);
      ExecKeepsOrders(Run(EMPTY_DB, ops[..|ops| - 1]), ops[|ops| - 1]);
    }
  }
}
