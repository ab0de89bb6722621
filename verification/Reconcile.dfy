/** The daily reconciliation: what the usage rows say was owed against what the ledger says was taken. */
module Reconcile {
  import opened Sequences
  import opened Ledger
  import opened Billing
  import Broker
  import Delivery
  import Engine
  import Metering
  import Pipeline

  datatype Stamped<T> = Stamped(row: T, at: int)

  datatype DayReconcile = DayReconcile(usageTotal: Money, settledTotal: Money, diff: Money, usageCount: nat,
      settleCount: nat)

  function InWindow<T>(rows: seq<Stamped<T>>, day: int, next: int): seq<T> {
    if rows == [] then []
    else
      var last := rows[|rows| - 1];
      InWindow(rows[..|rows| - 1], day, next) + if day <= last.at < next then [last.row] else []
  }

  function SettleRows(ledger: seq<Row>): seq<Row> {
    if ledger == [] then []
    else SettleRows(ledger[..|ledger| - 1]) + if ledger[|ledger| - 1].kind == Settle then [ledger[|ledger| - 1]] else []
  }

  function UsageTotal(rows: seq<UsagePayload>): Money {
    if rows == [] then 0.0 else UsageTotal(rows[..|rows| - 1]) + rows[|rows| - 1].totalCost
  }

  function AmountTotal(rows: seq<Row>): Money {
    if rows == [] then 0.0 else AmountTotal(rows[..|rows| - 1]) + rows[|rows| - 1].amount
  }

  function OverdraftTotal(rows: seq<Row>): Money {
    if rows == [] then 0.0 else OverdraftTotal(rows[..|rows| - 1]) + rows[|rows| - 1].overdraft
  }

  function Abs(m: Money): Money { if m < 0.0 then -m else m }

  /** The two sums of one window and their difference; nothing is written. */
  function ReconcileDay(usage: seq<Stamped<UsagePayload>>, ledger: seq<Stamped<Row>>, day: int,
      next: int): DayReconcile {
    var u, s := InWindow(usage, day, next), SettleRows(InWindow(ledger, day, next));
    var settled := Abs(AmountTotal(s));
    DayReconcile(UsageTotal(u), settled, UsageTotal(u) - settled, |u|, |s|)
  }

  // ── the exact account ──────────────────────────────────────────────────────

  /** What a settlement row was asked to take. */
  function CostOf(row: Row): Money { row.overdraft - row.amount }

  predicate Settles(rows: seq<Row>, requestId: string) {
    exists i :: 0 <= i < |rows| && rows[i].requestId == requestId
  }

  predicate Uses(usage: seq<UsagePayload>, requestId: string) {
    exists i :: 0 <= i < |usage| && usage[i].requestId == requestId
  }

  /** Cost of the usage rows that no settlement answers. */
  function Unsettled(usage: seq<UsagePayload>, rows: seq<Row>): Money {
    if usage == [] then 0.0
    else
      var u := usage[|usage| - 1];
      Unsettled(usage[..|usage| - 1], rows) + if Settles(rows, u.requestId) then 0.0 else u.totalCost
  }

  /** Cost of the settlements that no usage row announces. */
  function Unmetered(rows: seq<Row>, usage: seq<UsagePayload>): Money {
    if rows == [] then 0.0
    else
      var row := rows[|rows| - 1];
      Unmetered(rows[..|rows| - 1], usage) + if Uses(usage, row.requestId) then 0.0 else CostOf(row)
  }

  function CostTotal(rows: seq<Row>): Money {
    if rows == [] then 0.0 else CostTotal(rows[..|rows| - 1]) + CostOf(rows[|rows| - 1])
  }

  /** Cost of the rows of one request. */
  function CostFor(rows: seq<Row>, requestId: string): Money {
    if rows == [] then 0.0
    else CostFor(rows[..|rows| - 1], requestId) + if rows[|rows| - 1].requestId == requestId
        then CostOf(rows[|rows| - 1]) else 0.0
  }

  ghost predicate UsageOnce(usage: seq<UsagePayload>) {
    forall i, j :: 0 <= i < j < |usage| ==> usage[i].requestId != usage[j].requestId
  }

  ghost predicate SettledOnce(rows: seq<Row>) {
    forall i, j :: 0 <= i < j < |rows| ==> rows[i].requestId != rows[j].requestId
  }

  /** Where both sides know a request they agree on its cost. */
  ghost predicate CostsAgree(usage: seq<UsagePayload>, rows: seq<Row>) {
    forall i, j :: 0 <= i < |usage| && 0 <= j < |rows| && usage[i].requestId == rows[j].requestId ==>
        usage[i].totalCost == CostOf(rows[j])
  }

  lemma {:induction false} CostForAbsent(rows: seq<Row>, requestId: string)
    requires !Settles(rows, requestId)
    ensures CostFor(rows, requestId) == 0.0
  {
    if rows != [] {
      var n := |rows| - 1;
      assert rows[n].requestId != requestId;
      assert forall i :: 0 <= i < n ==> rows[..n][i] == rows[i];
      CostForAbsent(rows[..n], requestId);
    }
  }

  lemma {:induction false} CostForOne(rows: seq<Row>, requestId: string, k: nat)
    requires SettledOnce(rows) && k < |rows| && rows[k].requestId == requestId
    ensures CostFor(rows, requestId) == CostOf(rows[k])
  {
    var n := |rows| - 1;
    if k == n {
      assert !Settles(rows[..n], requestId);
      CostForAbsent(rows[..n], requestId);
    } else {
      CostForOne(rows[..n], requestId, k);
    }
  }

  lemma UsesSnoc(usage: seq<UsagePayload>, requestId: string)
    requires usage != []
    ensures Uses(usage, requestId) <==>
            Uses(usage[..|usage| - 1], requestId) || usage[|usage| - 1].requestId == requestId
  {
    var n := |usage| - 1;
    if Uses(usage[..n], requestId) {
      var i :| 0 <= i < n && usage[..n][i].requestId == requestId;
      assert usage[i].requestId == requestId;
    }
    if Uses(usage, requestId) && usage[n].requestId != requestId {
      var i :| 0 <= i < |usage| && usage[i].requestId == requestId;
      assert usage[..n][i].requestId == requestId;
    }
  }

  /** Announcing one more request takes exactly that request's settlements out of the unmetered ones. */
  lemma {:induction false} UnmeteredDrops(rows: seq<Row>, usage: seq<UsagePayload>)
    requires usage != [] && UsageOnce(usage)
    ensures Unmetered(rows, usage[..|usage| - 1]) == Unmetered(rows, usage) +
            CostFor(rows, usage[|usage| - 1].requestId)
  {
    if rows != [] {
      UnmeteredDrops(rows[..|rows| - 1], usage);
      UsesSnoc(usage, rows[|rows| - 1].requestId);
      assert !Uses(usage[..|usage| - 1], usage[|usage| - 1].requestId);
    }
  }

  /** Usage minus what is unsettled is settlements minus what is unmetered. */
  lemma {:induction false} Matched(usage: seq<UsagePayload>, rows: seq<Row>)
    requires UsageOnce(usage) && SettledOnce(rows) && CostsAgree(usage, rows)
    ensures UsageTotal(usage) - Unsettled(usage, rows) == CostTotal(rows) - Unmetered(rows, usage)
  {
    if usage == [] {
      NothingMetered(rows);
    } else {
      var n := |usage| - 1;
      Matched(usage[..n], rows);
      UnmeteredDrops(rows, usage);
      if Settles(rows, usage[n].requestId) {
        var k :| 0 <= k < |rows| && rows[k].requestId == usage[n].requestId;
        CostForOne(rows, usage[n].requestId, k);
      } else {
        CostForAbsent(rows, usage[n].requestId);
      }
    }
  }

  lemma {:induction false} NothingMetered(rows: seq<Row>)
    ensures Unmetered(rows, []) == CostTotal(rows)
  {
    if rows != [] {
      NothingMetered(rows[..|rows| - 1]);
    }
  }

  lemma {:induction false} CostSplits(rows: seq<Row>)
    ensures CostTotal(rows) == OverdraftTotal(rows) - AmountTotal(rows)
  {
    if rows != [] {
      CostSplits(rows[..|rows| - 1]);
    }
  }

  ghost predicate Signed(rows: seq<Row>) {
    forall i :: 0 <= i < |rows| ==> rows[i].amount <= 0.0 && rows[i].overdraft >= 0.0
  }

  lemma {:induction false} SignedTotals(rows: seq<Row>)
    requires Signed(rows)
    ensures AmountTotal(rows) <= 0.0 && OverdraftTotal(rows) >= 0.0
    ensures OverdraftTotal(rows) == 0.0 <==> forall i :: 0 <= i < |rows| ==> rows[i].overdraft == 0.0
  {
    if rows != [] {
      var n := |rows| - 1;
      SignedTotals(rows[..n]);
      assert forall i :: 0 <= i < n ==> rows[..n][i] == rows[i];
      assert rows[n].overdraft >= 0.0;
    }
  }

  /** The difference of any window, to the cent: the overdrafts, plus the usage not settled in the window,
      minus the settlements whose usage row is not in it. */
  lemma ReconcileExact(usage: seq<Stamped<UsagePayload>>, ledger: seq<Stamped<Row>>, day: int, next: int)
    requires
      var u, s := InWindow(usage, day, next), SettleRows(InWindow(ledger, day, next));
      UsageOnce(u) && SettledOnce(s) && Signed(s) && CostsAgree(u, s)
    ensures
      var u, s := InWindow(usage, day, next), SettleRows(InWindow(ledger, day, next));
      ReconcileDay(usage, ledger, day, next).diff == OverdraftTotal(s) + Unsettled(u, s) - Unmetered(s, u)
  {
    var u, s := InWindow(usage, day, next), SettleRows(InWindow(ledger, day, next));
    Matched(u, s);
    CostSplits(s);
    SignedTotals(s);
  }

  // ── where the hypotheses come from ─────────────────────────────────────────

  /** Every settlement row of a run stands for a settle task of that run. */
  ghost predicate FromOps(ledger: seq<Row>, ops: seq<Op>) {
    forall i :: 0 <= i < |ledger| && ledger[i].kind == Settle ==>
      exists op :: op in ops && op.SettleOp? && op.requestId == ledger[i].requestId && op.amount == CostOf(ledger[i])
  }

  ghost predicate NonNegativeSettles(ops: seq<Op>) {
    forall op :: op in ops && op.SettleOp? ==> op.amount >= 0.0
  }

  lemma OpsStep(db: Db, op: Op, ops: seq<Op>)
    requires Booked(db) && FromOps(db.ledger, ops) && SettleSigned(db.ledger) && (op.SettleOp? ==> op.amount >= 0.0)
    ensures FromOps(Exec(db, op).0.ledger, ops + [op]) && SettleSigned(Exec(db, op).0.ledger)
  {
    var db' := Exec(db, op).0;
    assert op in ops + [op] && forall o :: o in ops ==> o in ops + [op];
    forall i | 0 <= i < |db'.ledger| && db'.ledger[i].kind == Settle
      ensures exists o ::
                && o in ops + [op] && o.SettleOp? && o.requestId == db'.ledger[i].requestId
                && o.amount == CostOf(db'.ledger[i])
    {
      if i < |db.ledger| {
        assert db'.ledger[i] == db.ledger[i];
        var o :| o in ops && o.SettleOp? && o.requestId == db.ledger[i].requestId && o.amount == CostOf(db.ledger[i]);
      } else {
        assert op.SettleOp?;
        SettleSplitsCost(db, op.user, op.requestId, op.amount);
      }
    }
    if op.SettleOp? && Exec(db, op).1 == Done(true) {
      assert AccountBooked(db.ledger, op.user, db.accounts[op.user]);
      SettleSplitsCost(db, op.user, op.requestId, op.amount);
    }
  }

  ghost predicate SettleSigned(ledger: seq<Row>) {
    forall i :: 0 <= i < |ledger| && ledger[i].kind == Settle ==> ledger[i].amount <= 0.0 && ledger[i].overdraft >= 0.0
  }

  lemma {:induction false} RunFromOps(ops: seq<Op>)
    requires NonNegativeSettles(ops)
    ensures FromOps(Run(EMPTY_DB, ops).ledger, ops) && SettleSigned(Run(EMPTY_DB, ops).ledger)
  {
    if ops != [] {
      var init, op := ops[..|ops| - 1], ops[|ops| - 1];
      assert ops == init + [op];
      RunFromOps(init);
      LedgerMaterialised(init);
      RunSnoc(EMPTY_DB, init, op);
      OpsStep(Run(EMPTY_DB, init), op, init);
    }
  }

  function Rows<T>(s: seq<Stamped<T>>): seq<T> {
    seq(|s|, i requires 0 <= i < |s| => s[i].row)
  }

  /** at lists, in order, exactly the positions below n that are in keep. */
  ghost predicate Picks(at: seq<nat>, n: nat, keep: set<int>) {
    && (forall k, m :: 0 <= k < m < |at| ==> at[k] < at[m])
    && (forall i :: i in at <==> 0 <= i < n && i in keep)
  }

  lemma PickNext(at: seq<nat>, n: nat, keep: set<int>, keep': set<int>)
    requires Picks(at, n, keep) && forall i :: 0 <= i < n ==> (i in keep <==> i in keep')
    ensures Picks(if n in keep' then at + [n] else at, n + 1, keep')
  {
    forall k | 0 <= k < |at| ensures at[k] < n {
      assert at[k] in at;
    }
    assert n !in at;
  }

  function Inside<T>(rows: seq<Stamped<T>>, day: int, next: int): set<int> {
    set i | 0 <= i < |rows| && day <= rows[i].at < next
  }

  function PositionsIn<T>(rows: seq<Stamped<T>>, day: int, next: int): seq<nat> {
    if rows == [] then []
    else PositionsIn(rows[..|rows| - 1], day, next) + if day <= rows[|rows| - 1].at < next then [|rows| - 1] else []
  }

  lemma {:induction false} PositionsPick<T>(rows: seq<Stamped<T>>, day: int, next: int)
    ensures Picks(PositionsIn(rows, day, next), |rows|, Inside(rows, day, next))
  {
    if rows != [] {
      PositionsPick(rows[..|rows| - 1], day, next);
      PickNext(PositionsIn(rows[..|rows| - 1], day, next), |rows| - 1, Inside(rows[..|rows| - 1], day, next),
          Inside(rows, day, next));
    }
  }

  /** A window holds exactly the rows stamped inside it, in table order. */
  lemma {:induction false} WindowExactly<T>(rows: seq<Stamped<T>>, day: int, next: int)
    ensures var at := PositionsIn(rows, day, next);
            && Picks(at, |rows|, Inside(rows, day, next)) && |at| == |InWindow(rows, day, next)|
            && forall k :: 0 <= k < |at| ==> at[k] < |rows| && rows[at[k]].row == InWindow(rows, day, next)[k]
  {
    PositionsPick(rows, day, next);
    if rows != [] {
      WindowExactly(rows[..|rows| - 1], day, next);
    }
  }

  function Kept(ledger: seq<Row>): set<int> {
    set i | 0 <= i < |ledger| && ledger[i].kind == Settle
  }

  function PositionsOf(ledger: seq<Row>): seq<nat> {
    if ledger == [] then []
    else PositionsOf(ledger[..|ledger| - 1]) + if ledger[|ledger| - 1].kind == Settle then [|ledger| - 1] else []
  }

  lemma {:induction false} SettlePick(ledger: seq<Row>)
    ensures Picks(PositionsOf(ledger), |ledger|, Kept(ledger))
  {
    if ledger != [] {
      SettlePick(ledger[..|ledger| - 1]);
      PickNext(PositionsOf(ledger[..|ledger| - 1]), |ledger| - 1, Kept(ledger[..|ledger| - 1]), Kept(ledger));
    }
  }

  /** Its settlement rows are exactly its rows of that kind, in order. */
  lemma {:induction false} SettleExactly(ledger: seq<Row>)
    ensures var at := PositionsOf(ledger);
            && Picks(at, |ledger|, Kept(ledger)) && |at| == |SettleRows(ledger)|
            && forall k :: 0 <= k < |at| ==> at[k] < |ledger| && ledger[at[k]] == SettleRows(ledger)[k]
  {
    SettlePick(ledger);
    if ledger != [] {
      SettleExactly(ledger[..|ledger| - 1]);
    }
  }

  // ── the totals, position by position ───────────────────────────────────────

  /** How many usage rows are stamped inside the window, and what they cost together. */
  function UsageInside(usage: seq<Stamped<UsagePayload>>, day: int, next: int): (nat, Money) {
    if usage == [] then (0, 0.0)
    else
      var (count, cost) := UsageInside(usage[..|usage| - 1], day, next);
      var x := usage[|usage| - 1];
      if day <= x.at < next then (count + 1, cost + x.row.totalCost) else (count, cost)
  }

  /** How many ledger rows are settlements stamped inside the window, and what they moved together. */
  function SettledInside(ledger: seq<Stamped<Row>>, day: int, next: int): (nat, Money) {
    if ledger == [] then (0, 0.0)
    else
      var (count, amount) := SettledInside(ledger[..|ledger| - 1], day, next);
      var x := ledger[|ledger| - 1];
      if day <= x.at < next && x.row.kind == Settle then (count + 1, amount + x.row.amount) else (count, amount)
  }

  lemma UsageStep(u: seq<UsagePayload>, row: UsagePayload, inside: bool)
    ensures
      var u' := u + if inside then [row] else [];
      && |u'| == |u| + (if inside then 1 else 0)
      && UsageTotal(u') == UsageTotal(u) + if inside then row.totalCost else 0.0
  {
    assert (u + [row])[..|u|] == u && u + [] == u;
  }

  lemma SettledStep(w: seq<Row>, row: Row, inside: bool)
    ensures
      var s, s' := SettleRows(w), SettleRows(w + if inside then [row] else []);
      var counts := inside && row.kind == Settle;
      && |s'| == |s| + (if counts then 1 else 0)
      && AmountTotal(s') == AmountTotal(s) + if counts then row.amount else 0.0
  {
    assert (w + [row])[..|w|] == w && w + [] == w;
    assert (SettleRows(w) + [row])[..|SettleRows(w)|] == SettleRows(w);
    assert SettleRows(w) + [] == SettleRows(w);
  }

  lemma {:induction false} UsageTotalIs(usage: seq<Stamped<UsagePayload>>, day: int, next: int)
    ensures var u := InWindow(usage, day, next); (|u|, UsageTotal(u)) == UsageInside(usage, day, next)
  {
    if usage != [] {
      var init, x := usage[..|usage| - 1], usage[|usage| - 1];
      UsageTotalIs(init, day, next);
      UsageStep(InWindow(init, day, next), x.row, day <= x.at < next);
    }
  }

  lemma {:induction false} SettledTotalIs(ledger: seq<Stamped<Row>>, day: int, next: int)
    ensures
      var s := SettleRows(InWindow(ledger, day, next)); (|s|, AmountTotal(s)) == SettledInside(ledger, day, next)
  {
    if ledger != [] {
      var init, x := ledger[..|ledger| - 1], ledger[|ledger| - 1];
      SettledTotalIs(init, day, next);
      SettledStep(InWindow(init, day, next), x.row, day <= x.at < next);
    }
  }

  /** The report of a day: how many usage rows and settlements are stamped inside it and what each sum to, the
      settlements without their sign, and the first sum less the second. */
  lemma DayReport(usage: seq<Stamped<UsagePayload>>, ledger: seq<Stamped<Row>>, day: int, next: int)
    ensures
      var r := ReconcileDay(usage, ledger, day, next);
      var (uses, cost) := UsageInside(usage, day, next);
      var (settles, moved) := SettledInside(ledger, day, next);
      && r.usageTotal == cost && r.usageCount == uses && r.settleCount == settles
      && r.settledTotal >= 0.0 && (r.settledTotal == moved || r.settledTotal == -moved)
      && r.diff == r.usageTotal - r.settledTotal
  {
    UsageTotalIs(usage, day, next);
    SettledTotalIs(ledger, day, next);
  }

  /** The settlement rows of a window, by their increasing positions in the table. */
  lemma WindowPositions(ledger: seq<Stamped<Row>>, day: int, next: int) returns (at: seq<nat>)
    ensures var s := SettleRows(InWindow(ledger, day, next));
            && |at| == |s|
            && (forall k :: 0 <= k < |at| ==> at[k] < |ledger| && ledger[at[k]].row == s[k] && s[k].kind == Settle)
            && (forall k, m :: 0 <= k < m < |at| ==> at[k] < at[m])
  {
    var w, s := PositionsIn(ledger, day, next), PositionsOf(InWindow(ledger, day, next));
    WindowExactly(ledger, day, next);
    SettleExactly(InWindow(ledger, day, next));
    at := seq(|s|, k requires 0 <= k < |s| => w[s[k]]);
    forall k | 0 <= k < |at| ensures SettleRows(InWindow(ledger, day, next))[k].kind == Settle {
      assert s[k] in s;
    }
  }

  /** A window of any ledger the transactions can produce settles each request once, with honest signs. */
  lemma WindowOfRun(ledger: seq<Stamped<Row>>, ops: seq<Op>, day: int, next: int)
    requires NonNegativeSettles(ops) && Rows(ledger) == Run(EMPTY_DB, ops).ledger
    ensures
      var s := SettleRows(InWindow(ledger, day, next));
      SettledOnce(s) && Signed(s) && FromOps(s, ops) && forall j :: 0 <= j < |s| ==> s[j].kind == Settle
  {
    var s := SettleRows(InWindow(ledger, day, next));
    var at := WindowPositions(ledger, day, next);
    RunFromOps(ops);
    LedgerMaterialised(ops);
    var all := Run(EMPTY_DB, ops).ledger;
    assert |all| == |ledger|;
    forall k | 0 <= k < |s| ensures s[k] == all[at[k]] && s[k].kind == Settle {
      assert ledger[at[k]].row == Rows(ledger)[at[k]];
    }
    forall k, m | 0 <= k < m < |s| ensures s[k].requestId != s[m].requestId {
      assert at[k] < at[m] && all[at[k]].kind == all[at[m]].kind == Settle;
    }
  }

  /** Every settle task of the run carries the cost its request's usage row recorded. */
  ghost predicate ChargedAsMetered(usage: seq<UsagePayload>, ops: seq<Op>) {
    forall op, i :: op in ops && op.SettleOp? && 0 <= i < |usage| && usage[i].requestId == op.requestId ==>
        op.amount == usage[i].totalCost
  }

  /** The window holds both sides of every request it holds one side of, free requests aside. */
  ghost predicate LandedTogether(usage: seq<UsagePayload>, rows: seq<Row>) {
    && (forall i :: 0 <= i < |usage| && usage[i].totalCost != 0.0 ==> Settles(rows, usage[i].requestId))
    && (forall j :: 0 <= j < |rows| ==> Uses(usage, rows[j].requestId))
  }

  lemma {:induction false} NothingUnsettled(usage: seq<UsagePayload>, rows: seq<Row>)
    requires forall i :: 0 <= i < |usage| && usage[i].totalCost != 0.0 ==> Settles(rows, usage[i].requestId)
    ensures Unsettled(usage, rows) == 0.0
  {
    if usage != [] {
      assert forall i :: 0 <= i < |usage| - 1 ==> usage[..|usage| - 1][i] == usage[i];
      NothingUnsettled(usage[..|usage| - 1], rows);
    }
  }

  lemma {:induction false} NothingUnmetered(rows: seq<Row>, usage: seq<UsagePayload>)
    requires forall j :: 0 <= j < |rows| ==> Uses(usage, rows[j].requestId)
    ensures Unmetered(rows, usage) == 0.0
  {
    if rows != [] {
      assert forall i :: 0 <= i < |rows| - 1 ==> rows[..|rows| - 1][i] == rows[i];
      NothingUnmetered(rows[..|rows| - 1], usage);
    }
  }

  /** The reconciliation identity, for any run of transactions: when each request of the window has its usage
      row and its settlement there once, the difference is the overdraft total, so it is never negative and
      it is zero exactly when no settlement overdrew. */
  lemma ReconciliationIdentity(usage: seq<Stamped<UsagePayload>>, ledger: seq<Stamped<Row>>, ops: seq<Op>, day: int,
      next: int)
    requires NonNegativeSettles(ops) && Rows(ledger) == Run(EMPTY_DB, ops).ledger
    requires UsageOnce(InWindow(usage, day, next)) && ChargedAsMetered(InWindow(usage, day, next), ops)
    requires LandedTogether(InWindow(usage, day, next), SettleRows(InWindow(ledger, day, next)))
    ensures
      var s := SettleRows(InWindow(ledger, day, next));
      var diff := ReconcileDay(usage, ledger, day, next).diff;
      diff == OverdraftTotal(s) >= 0.0 && (diff == 0.0 <==> forall j :: 0 <= j < |s| ==> s[j].overdraft == 0.0)
  {
    var u, s := InWindow(usage, day, next), SettleRows(InWindow(ledger, day, next));
    WindowOfRun(ledger, ops, day, next);
    ReconcileExact(usage, ledger, day, next);
    NothingUnsettled(u, s);
    NothingUnmetered(s, u);
    SignedTotals(s);
  }

  // ── from the calls to the difference ───────────────────────────────────────

  /** A finished call, as its usage and settle tasks are made from it. */
  datatype Call = Call(requestId: string, user: int, price: Option<Metering.Price>, groupRate: Money,
      channelRate: Money, tokens: Tokens, stream: bool, status: int, errCode: string)

  function Sends(c: Call): (sent: seq<Metering.Send>)
    ensures |sent| == 2 && sent[0].SendUsage? && sent[1].SendSettle?
  {
    Metering.Pair(c.requestId, c.user, c.tokens, Metering.Snapshot(c.price, c.groupRate, c.channelRate), c.stream,
        c.status, c.errCode)
  }

  predicate HonestCall(c: Call) {
    && Metering.PriceNonNegative(c.price) && c.groupRate >= 0.0 && c.channelRate >= 0.0
    && c.tokens.input >= 0 && c.tokens.output >= 0 && c.tokens.cacheRead >= 0 && c.tokens.cacheWrite >= 0
  }

  /** Prices, rates and counts that are not negative, and an id of its own for each call. */
  ghost predicate Honest(calls: set<Call>) {
    && (forall c :: c in calls ==> HonestCall(c))
    && (forall c, d :: c in calls && d in calls && c.requestId == d.requestId ==> c == d)
  }

  ghost predicate Metered(calls: set<Call>, row: UsagePayload) {
    exists c :: c in calls && row == Sends(c)[0].row
  }

  ghost predicate SettledFor(calls: set<Call>, t: Delivery.Task) {
    exists c :: c in calls && t == Engine.Charge(Sends(c)[1].payload)
  }

  lemma CallCosts(c: Call)
    requires HonestCall(c)
    ensures Engine.Charge(Sends(c)[1].payload).amount == Sends(c)[0].row.totalCost >= 0.0
  {
    CostSign(Metering.Snapshot(c.price, c.groupRate, c.channelRate), c.tokens);
  }

  /** Transactions of tasks sent for honest calls charge what the calls' usage rows say. */
  lemma SentAsMetered(calls: set<Call>, usage: seq<UsagePayload>, tasks: set<Delivery.Task>, ops: seq<Op>)
    requires Honest(calls) && forall i :: 0 <= i < |usage| ==> Metered(calls, usage[i])
    requires forall t :: t in tasks && t.SettleTask? ==> SettledFor(calls, t)
    requires forall op :: op in ops && op.SettleOp? ==> exists t :: t in tasks && op == Pipeline.OpOf(t)
    ensures ChargedAsMetered(usage, ops) && NonNegativeSettles(ops)
  {
    forall op | op in ops && op.SettleOp?
      ensures op.amount >= 0.0
      ensures forall i :: 0 <= i < |usage| && usage[i].requestId == op.requestId ==> op.amount == usage[i].totalCost
    {
      var t :| t in tasks && op == Pipeline.OpOf(t);
      var c :| c in calls && t == Engine.Charge(Sends(c)[1].payload);
      CallCosts(c);
      forall i | 0 <= i < |usage| && usage[i].requestId == op.requestId ensures op.amount == usage[i].totalCost {
        var d :| d in calls && usage[i] == Sends(d)[0].row;
        assert d == c;
      }
    }
  }

  lemma LogFromTasks(s: Pipeline.Sys)
    requires Pipeline.LogOk(s) && Pipeline.PassedOk(s)
    ensures forall op :: op in s.log && op.SettleOp? ==> exists t :: t in s.emitted && op == Pipeline.OpOf(t)
  {
    forall op | op in s.log && op.SettleOp? ensures exists t :: t in s.emitted && op == Pipeline.OpOf(t) {
      var i :| 0 <= i < |s.log| && s.log[i] == op;
      assert Pipeline.OpLogged(s.world.db.ledger, s.log[i], s.passed);
      var t :| t in s.passed && op == Pipeline.OpOf(t);
      assert t in s.emitted;
    }
  }

  /** The identity from end to end: for honest calls with an id each, whatever the pipeline did with their
      settle tasks, a window in which both sides landed once differs by the overdrafts alone. */
  lemma PipelineReconciles(cfg: Broker.Config, steps: seq<Pipeline.Step>, s: Pipeline.Sys, calls: set<Call>,
      usage: seq<Stamped<UsagePayload>>, ledger: seq<Stamped<Row>>, day: int, next: int)
    requires cfg.maxRetry < Broker.INT32_MAX && Pipeline.Run(cfg, Pipeline.INIT, steps, s)
    requires Honest(calls) && forall t :: t in s.emitted && t.SettleTask? ==> SettledFor(calls, t)
    requires Rows(ledger) == s.world.db.ledger
    requires UsageOnce(InWindow(usage, day, next))
    requires forall i :: 0 <= i < |InWindow(usage, day, next)| ==> Metered(calls, InWindow(usage, day, next)[i])
    requires LandedTogether(InWindow(usage, day, next), SettleRows(InWindow(ledger, day, next)))
    ensures
      var rows := SettleRows(InWindow(ledger, day, next));
      var diff := ReconcileDay(usage, ledger, day, next).diff;
      && diff == OverdraftTotal(rows) >= 0.0
      && (diff == 0.0 <==> forall j :: 0 <= j < |rows| ==> rows[j].overdraft == 0.0)
  {
    Pipeline.InitOk(cfg);
    Pipeline.RunKeeps(cfg, Pipeline.INIT, steps, s);
    LogFromTasks(s);
    SentAsMetered(calls, InWindow(usage, day, next), s.emitted, s.log);
    ReconciliationIdentity(usage, ledger, s.log, day, next);
  }
}
