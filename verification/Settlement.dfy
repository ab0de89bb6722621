/** What a pile of settlements does to a customer, whatever their order and however often each arrives. */
module Settlement {
  import opened Sequences
  import opened Ledger

  function Min(a: Money, b: Money): Money { if a <= b then a else b }
  function Max(a: Money, b: Money): Money { if a >= b then a else b }

  /** Sum of the overdraft column over one user's rows. */
  function Overdraft(ledger: seq<Row>, user: int): Money {
    if ledger == [] then 0.0
    else
      var row := ledger[|ledger| - 1];
      Overdraft(ledger[..|ledger| - 1], user) + if row.user == user then row.overdraft else 0.0
  }

  /** What the distinct settlements in s add up to for one user. */
  ghost function Owed(s: set<Op>, user: int): Money
    requires forall c :: c in s ==> c.SettleOp?
  {
    if s == {} then 0.0
    else
      var c :| c in s;
      Owed(s - {c}, user) + if c.user == user then c.amount else 0.0
  }

  lemma {:induction false} OwedSplit(s: set<Op>, c: Op, user: int)
    requires forall c :: c in s ==> c.SettleOp?
    requires c in s
    ensures Owed(s, user) == Owed(s - {c}, user) + if c.user == user then c.amount else 0.0
    decreases s
  {
    var pick :| pick in s && Owed(s, user) == Owed(s - {pick}, user) + if pick.user == user then pick.amount else 0.0;
    if pick != c {
      OwedSplit(s - {pick}, c, user);
      OwedSplit(s - {c}, pick, user);
      assert s - {pick} - {c} == s - {c} - {pick};
    }
  }

  ghost function ToSet(ops: seq<Op>): set<Op> {
    set c | c in ops
  }

  /** What settlements a worker is asked to apply; it refuses negative ones itself. */
  ghost predicate Settles(ops: seq<Op>) {
    forall c :: c in ops ==> c.SettleOp? && c.amount >= 0.0
  }

  /** Nothing in the tables before the run stands in the way of c's row. */
  predicate Payable(db: Db, c: Op) {
    && c.SettleOp? && c.amount > 0.0 && c.user in db.accounts && |c.requestId| <= MAX_REQUEST_ID
    && !HasRow(db.ledger, Settle, c.requestId)
  }

  predicate Names(ops: seq<Op>, r: string) {
    exists i :: 0 <= i < |ops| && ops[i].SettleOp? && ops[i].requestId == r
  }

  /** The first payable payload of each request, whatever else comes under its id. */
  function Payers(db: Db, ops: seq<Op>): (p: seq<Op>)
    ensures forall c :: c in p ==> c in ops && Payable(db, c)
  {
    if ops == [] then []
    else
      var p, c := Payers(db, ops[..|ops| - 1]), ops[|ops| - 1];
      assert c in ops && forall d :: d in ops[..|ops| - 1] ==> d in ops;
      if Payable(db, c) && !Names(p, c.requestId) then p + [c] else p
  }

  function Own(c: Op, user: int): Money {
    if c.SettleOp? && c.user == user then c.amount else 0.0
  }

  /** What a list of settlements adds up to for one user. */
  function OwedBy(ops: seq<Op>, user: int): Money {
    if ops == [] then 0.0 else OwedBy(ops[..|ops| - 1], user) + Own(ops[|ops| - 1], user)
  }

  /** The totals of one customer after settlements worth s. */
  ghost predicate ChargedUser(db: Db, db': Db, s: Money, u: int)
    requires u in db.accounts && u in db'.accounts
  {
    var b := db.accounts[u].balance;
    && s >= 0.0
    && db'.accounts[u].balance == Max(0.0, b - s)
    && db'.accounts[u].consumed == db.accounts[u].consumed + Min(b, s)
    && Overdraft(db'.ledger, u) == Overdraft(db.ledger, u) + Max(0.0, s - b)
  }

  /** The state after some deliveries: exactly the paid requests have got rows, and the totals follow the sum. */
  ghost predicate Charged(db: Db, ops: seq<Op>) {
    var db', p := Run(db, ops), Payers(db, ops);
    && db'.accounts.Keys == db.accounts.Keys
    && (forall r :: HasRow(db'.ledger, Settle, r) <==> HasRow(db.ledger, Settle, r) || Names(p, r))
    && (forall u :: u in db.accounts ==> ChargedUser(db, db', OwedBy(p, u), u))
  }

  lemma HasRowSnoc(ledger: seq<Row>, row: Row, kind: Kind, r: string)
    ensures HasRow(ledger + [row], kind, r) <==> HasRow(ledger, kind, r) || (row.kind == kind && row.requestId == r)
  {
    if HasRow(ledger, kind, r) {
      var i :| 0 <= i < |ledger| && ledger[i].kind == kind && ledger[i].requestId == r;
      assert (ledger + [row])[i] == ledger[i];
    }
    if row.kind == kind && row.requestId == r {
      assert (ledger + [row])[|ledger|] == row;
    }
  }

  lemma OverdraftSnoc(ledger: seq<Row>, row: Row, user: int)
    ensures Overdraft(ledger + [row], user) == Overdraft(ledger, user) + if row.user == user then row.overdraft else 0.0
  {
    assert (ledger + [row])[..|ledger|] == ledger;
  }

  /** One fresh settlement, as the customer's totals see it. */
  lemma FreshCharge(db: Db, mid: Db, c: Op, s: Money, s': Money, u: int)
    requires c.SettleOp? && c.amount > 0.0 && u in db.accounts && u in mid.accounts && db.accounts[u].balance >= 0.0
    requires ChargedUser(db, mid, s, u) && Exec(mid, c).1 == Done(true) && s' == s + Own(c, u)
    ensures u in Exec(mid, c).0.accounts && ChargedUser(db, Exec(mid, c).0, s', u)
  {
    var db' := Exec(mid, c).0;
    OverdraftSnoc(mid.ledger, db'.ledger[|mid.ledger|], u);
  }

  lemma NamesSnoc(p: seq<Op>, c: Op, r: string)
    requires c.SettleOp?
    ensures Names(p + [c], r) <==> Names(p, r) || c.requestId == r
  {
    if Names(p, r) {
      var i :| 0 <= i < |p| && p[i].SettleOp? && p[i].requestId == r;
      assert (p + [c])[i] == p[i];
    }
    assert (p + [c])[|p|] == c;
  }

  lemma PayersSnoc(db: Db, init: seq<Op>, c: Op)
    ensures
      var p := Payers(db, init);
      Payers(db, init + [c]) == if Payable(db, c) && !Names(p, c.requestId) then p + [c] else p
  {
    assert (init + [c])[..|init|] == init;
  }

  lemma OwedSnoc(p: seq<Op>, c: Op, user: int)
    ensures OwedBy(p + [c], user) == OwedBy(p, user) + Own(c, user)
  {
    assert (p + [c])[..|p|] == p;
  }

  /** A request's first payable payload, as the rows see it. */
  lemma FreshRow(db: Db, init: seq<Op>, c: Op)
    requires Charged(db, init) && Payable(db, c) && !Names(Payers(db, init), c.requestId)
    ensures
      var mid := Run(db, init);
      var (db', out) := Exec(mid, c);
      && out == Done(true) && db'.accounts.Keys == mid.accounts.Keys
      && forall r :: HasRow(db'.ledger, Settle, r) <==> HasRow(mid.ledger, Settle, r) || c.requestId == r
  {
    var mid := Run(db, init);
    assert !HasRow(mid.ledger, Settle, c.requestId);
    var db' := Exec(mid, c).0;
    forall r { HasRowSnoc(mid.ledger, db'.ledger[|mid.ledger|], Settle, r); }
  }

  /** Any other delivery changes nothing. */
  lemma NothingToPay(db: Db, init: seq<Op>, c: Op)
    requires Charged(db, init) && c.SettleOp? && c.amount >= 0.0
    requires !Payable(db, c) || Names(Payers(db, init), c.requestId)
    ensures Exec(Run(db, init), c).0 == Run(db, init)
  {
  }

  lemma PaidRows(db: Db, init: seq<Op>, c: Op)
    requires Charged(db, init) && Payable(db, c) && !Names(Payers(db, init), c.requestId)
    ensures
      var db', p := Exec(Run(db, init), c).0, Payers(db, init) + [c];
      && db'.accounts.Keys == db.accounts.Keys
      && forall r :: HasRow(db'.ledger, Settle, r) <==> HasRow(db.ledger, Settle, r) || Names(p, r)
  {
    FreshRow(db, init, c);
    forall r { NamesSnoc(Payers(db, init), c, r); }
  }

  lemma PaidTotals(db: Db, mid: Db, p: seq<Op>, c: Op, u: int)
    requires c.SettleOp? && c.amount > 0.0 && u in db.accounts && u in mid.accounts && db.accounts[u].balance >= 0.0
    requires ChargedUser(db, mid, OwedBy(p, u), u) && Exec(mid, c).1 == Done(true)
    ensures u in Exec(mid, c).0.accounts && ChargedUser(db, Exec(mid, c).0, OwedBy(p + [c], u), u)
  {
    OwedSnoc(p, c, u);
    FreshCharge(db, mid, c, OwedBy(p, u), OwedBy(p + [c], u), u);
  }

  lemma PayOnce(db: Db, init: seq<Op>, c: Op)
    requires Charged(db, init) && Payable(db, c) && !Names(Payers(db, init), c.requestId)
    requires forall u :: u in db.accounts ==> db.accounts[u].balance >= 0.0
    ensures Charged(db, init + [c])
  {
    RunSnoc(db, init, c);
    PayersSnoc(db, init, c);
    FreshRow(db, init, c);
    PaidRows(db, init, c);
    forall u | u in db.accounts
        ensures ChargedUser(db, Run(db, init + [c]), OwedBy(Payers(db, init) + [c], u), u) {
      PaidTotals(db, Run(db, init), Payers(db, init), c, u);
    }
  }

  /** For any list of settlements at all, unknown customers, over-long ids, repetitions and payloads that
      disagree included: each customer ends with max(0, b - S), has consumed min(b, S) more, and owes
      max(0, S - b), where S adds up the first payable payload of each request. */
  lemma {:induction false} SettlementTotals(db: Db, ops: seq<Op>)
    requires Settles(ops)
    requires forall u :: u in db.accounts ==> db.accounts[u].balance >= 0.0
    ensures Charged(db, ops)
  {
    if ops != [] {
      var init, c := ops[..|ops| - 1], ops[|ops| - 1];
      assert ops == init + [c];
      SettlementTotals(db, init);
      if Payable(db, c) && !Names(Payers(db, init), c.requestId) {
        PayOnce(db, init, c);
      } else {
        RunSnoc(db, init, c);
        PayersSnoc(db, init, c);
        NothingToPay(db, init, c);
      }
    }
  }

  // ── when the order does not matter ─────────────────────────────────────────

  /** The same settlements, in another order and repeated differently. */
  ghost predicate SameMembers(ops: seq<Op>, ops': seq<Op>) {
    forall c :: c in ops <==> c in ops'
  }

  /** Payable payloads of one request agree. */
  ghost predicate Agree(db: Db, ops: seq<Op>) {
    forall c, d :: c in ops && d in ops && Payable(db, c) && Payable(db, d) && c.requestId == d.requestId ==> c == d
  }

  /** Every customer is left alike. */
  ghost predicate Alike(a: Db, b: Db) {
    && a.accounts.Keys == b.accounts.Keys
    && forall u :: u in a.accounts ==>
         && a.accounts[u].balance == b.accounts[u].balance
         && a.accounts[u].consumed == b.accounts[u].consumed
         && Overdraft(a.ledger, u) == Overdraft(b.ledger, u)
  }

  lemma {:induction false} PayersName(db: Db, ops: seq<Op>, c: Op)
    requires c in ops && Payable(db, c)
    ensures Names(Payers(db, ops), c.requestId)
  {
    var init, last := ops[..|ops| - 1], ops[|ops| - 1];
    var p := Payers(db, init);
    assert ops == init + [last];
    PayersSnoc(db, init, last);
    if c in init {
      PayersName(db, init, c);
    }
    if last.SettleOp? {
      NamesSnoc(p, last, c.requestId);
    }
  }

  lemma {:induction false} PayersDistinct(db: Db, ops: seq<Op>)
    ensures Distinct(Payers(db, ops))
  {
    if ops != [] {
      PayersDistinct(db, ops[..|ops| - 1]);
    }
  }

  /** Of payloads that agree, the payers are the payable ones. */
  lemma PayersAre(db: Db, ops: seq<Op>)
    requires Agree(db, ops)
    ensures forall c :: c in Payers(db, ops) <==> c in ops && Payable(db, c)
  {
    forall c | c in ops && Payable(db, c) ensures c in Payers(db, ops) {
      PayersName(db, ops, c);
      var i :| 0 <= i < |Payers(db, ops)| && Payers(db, ops)[i].SettleOp? &&
               Payers(db, ops)[i].requestId == c.requestId;
      assert Payers(db, ops)[i] in Payers(db, ops);
    }
  }

  lemma {:induction false} OwedDistinct(s: seq<Op>, user: int)
    requires Distinct(s) && forall c :: c in s ==> c.SettleOp?
    ensures OwedBy(s, user) == Owed(ToSet(s), user)
  {
    if s != [] {
      var init, c := s[..|s| - 1], s[|s| - 1];
      assert s == init + [c] && c !in init;
      OwedDistinct(init, user);
      assert ToSet(s) - {c} == ToSet(init);
      OwedSplit(ToSet(s), c, user);
    }
  }

  lemma SameNames(c: Op, d: Op, rest: seq<Op>, r: string)
    requires c.SettleOp? && d.SettleOp? && c.requestId == d.requestId
    ensures Names([c] + rest, r) <==> Names([d] + rest, r)
  {
    forall i | 0 <= i < |rest| + 1
      ensures ([c] + rest)[i].SettleOp? == ([d] + rest)[i].SettleOp?
      ensures ([c] + rest)[i].SettleOp? ==> ([c] + rest)[i].requestId == ([d] + rest)[i].requestId
    {
    }
  }

  lemma StepAfterHead(db: Db, a: seq<Op>, c: Op, r: seq<Op>, e: Op)
    requires Payers(db, a) == [c] + r
    ensures Payers(db, a + [e]) == [c] + if Payable(db, e) && !Names([c] + r, e.requestId) then r + [e] else r
  {
    PayersSnoc(db, a, e);
    assert [c] + r + [e] == [c] + (r + [e]);
  }

  /** One more delivery after two lists that differ in their first payer. */
  lemma HeadStep(db: Db, a: seq<Op>, b: seq<Op>, c: Op, d: Op, r: seq<Op>, e: Op)
    requires c.SettleOp? && d.SettleOp? && c.requestId == d.requestId
    requires Payers(db, a) == [c] + r && Payers(db, b) == [d] + r
    ensures
      var rest := if Payable(db, e) && !Names([c] + r, e.requestId) then r + [e] else r;
      Payers(db, a + [e]) == [c] + rest && Payers(db, b + [e]) == [d] + rest
  {
    StepAfterHead(db, a, c, r, e);
    StepAfterHead(db, b, d, r, e);
    if Payable(db, e) {
      SameNames(c, d, r, e.requestId);
    }
  }

  lemma OnlyFirstPays(db: Db, c: Op, d: Op)
    requires Payable(db, c) && Payable(db, d) && c.requestId == d.requestId
    ensures Payers(db, [c, d]) == [c]
  {
    assert [c, d] == [] + [c] + [d];
    PayersSnoc(db, [], c);
    assert [] + [c] == [c];
    NamesSnoc([], c, c.requestId);
    PayersSnoc(db, [] + [c], d);
  }

  lemma LastOut(h: seq<Op>, ops: seq<Op>)
    requires ops != []
    ensures h + ops == h + ops[..|ops| - 1] + [ops[|ops| - 1]]
  {
  }

  /** Two payloads that disagree, at the head of a list: whichever comes first pays, and nothing else changes. */
  lemma {:induction false} HeadPays(db: Db, c: Op, d: Op, ops: seq<Op>) returns (rest: seq<Op>)
    requires Payable(db, c) && Payable(db, d) && c.requestId == d.requestId
    ensures Payers(db, [c, d] + ops) == [c] + rest && Payers(db, [d, c] + ops) == [d] + rest
  {
    if ops == [] {
      rest := [];
      OnlyFirstPays(db, c, d);
      OnlyFirstPays(db, d, c);
      assert [c, d] + ops == [c, d] && [d, c] + ops == [d, c];
    } else {
      var init, e := ops[..|ops| - 1], ops[|ops| - 1];
      var r := HeadPays(db, c, d, init);
      HeadStep(db, [c, d] + init, [d, c] + init, c, d, r, e);
      LastOut([c, d], ops);
      LastOut([d, c], ops);
      rest := if Payable(db, e) && !Names([c] + r, e.requestId) then r + [e] else r;
    }
  }

  lemma {:induction false} OwedHead(c: Op, rest: seq<Op>, user: int)
    ensures OwedBy([c] + rest, user) == Own(c, user) + OwedBy(rest, user)
  {
    if rest == [] {
      assert [c] + rest == [] + [c];
      OwedSnoc([], c, user);
    } else {
      var init, e := rest[..|rest| - 1], rest[|rest| - 1];
      OwedHead(c, init, user);
      assert [c] + rest == ([c] + init) + [e] && rest == init + [e];
      OwedSnoc([c] + init, e, user);
      OwedSnoc(init, e, user);
    }
  }

  /** Customers left alike were asked for the same. */
  lemma AlikeOwed(db: Db, a: seq<Op>, b: seq<Op>, u: int)
    requires Charged(db, a) && Charged(db, b) && Alike(Run(db, a), Run(db, b)) && u in db.accounts
    ensures OwedBy(Payers(db, a), u) == OwedBy(Payers(db, b), u)
  {
    assert u in Run(db, a).accounts;
    assert ChargedUser(db, Run(db, a), OwedBy(Payers(db, a), u), u);
    assert ChargedUser(db, Run(db, b), OwedBy(Payers(db, b), u), u);
  }

  lemma AgreeingAlike(db: Db, ops: seq<Op>, ops': seq<Op>)
    requires Settles(ops) && Agree(db, ops) && SameMembers(ops, ops')
    requires forall u :: u in db.accounts ==> db.accounts[u].balance >= 0.0
    ensures Alike(Run(db, ops), Run(db, ops'))
  {
    SettlementTotals(db, ops);
    SettlementTotals(db, ops');
    PayersAre(db, ops);
    PayersAre(db, ops');
    PayersDistinct(db, ops);
    PayersDistinct(db, ops');
    var p, p' := Payers(db, ops), Payers(db, ops');
    assert ToSet(p) == ToSet(p');
    forall u | u in db.accounts ensures OwedBy(p, u) == OwedBy(p', u) {
      OwedDistinct(p, u);
      OwedDistinct(p', u);
    }
  }

  lemma HeadsAreMembers(ops: seq<Op>, c: Op, d: Op)
    requires Settles(ops) && c in ops && d in ops
    ensures SameMembers(ops, [c, d] + ops) && Settles([c, d] + ops)
  {
    forall e ensures e in [c, d] + ops <==> e in ops {
    }
  }

  /** Two payable payloads of one request that disagree, in both orders: some customer is left differently. */
  lemma DisagreeingDiffer(db: Db, ops: seq<Op>, c: Op, d: Op)
    requires Charged(db, [c, d] + ops) && Charged(db, [d, c] + ops) && c != d
    requires Payable(db, c) && Payable(db, d) && c.requestId == d.requestId
    ensures !Alike(Run(db, [c, d] + ops), Run(db, [d, c] + ops))
  {
    var rest := HeadPays(db, c, d, ops);
    if Alike(Run(db, [c, d] + ops), Run(db, [d, c] + ops)) {
      SameAsked(db, [c, d] + ops, [d, c] + ops, c, d, rest, c.user);
      SameAsked(db, [c, d] + ops, [d, c] + ops, c, d, rest, d.user);
    }
  }

  lemma SameAsked(db: Db, a: seq<Op>, b: seq<Op>, c: Op, d: Op, rest: seq<Op>, u: int)
    requires Charged(db, a) && Charged(db, b) && Alike(Run(db, a), Run(db, b)) && u in db.accounts
    requires Payers(db, a) == [c] + rest && Payers(db, b) == [d] + rest
    ensures Own(c, u) == Own(d, u)
  {
    AlikeOwed(db, a, b, u);
    OwedHead(c, rest, u);
    OwedHead(d, rest, u);
  }

  lemma AlikeJoin(a: Db, b: Db, c: Db)
    requires Alike(a, b) && Alike(a, c)
    ensures Alike(b, c)
  {
  }

  lemma DisagreeingDependOnOrder(db: Db, ops: seq<Op>, c: Op, d: Op) returns (ops': seq<Op>)
    requires Settles(ops) && c in ops && d in ops && c != d
    requires Payable(db, c) && Payable(db, d) && c.requestId == d.requestId
    requires forall u :: u in db.accounts ==> db.accounts[u].balance >= 0.0
    ensures SameMembers(ops, ops') && !Alike(Run(db, ops), Run(db, ops'))
  {
    HeadsAreMembers(ops, c, d);
    HeadsAreMembers(ops, d, c);
    SettlementTotals(db, [c, d] + ops);
    SettlementTotals(db, [d, c] + ops);
    DisagreeingDiffer(db, ops, c, d);
    ops' := [c, d] + ops;
    if Alike(Run(db, ops), Run(db, ops')) {
      ops' := [d, c] + ops;
      if Alike(Run(db, ops), Run(db, ops')) {
        AlikeJoin(Run(db, ops), Run(db, [c, d] + ops), Run(db, ops'));
      }
    }
  }

  /** The delivery order, and how often each arrives, leaves every customer alike if and only if the payable
      payloads of each request agree. */
  lemma OrderIndependentIff(db: Db, ops: seq<Op>)
    requires Settles(ops)
    requires forall u :: u in db.accounts ==> db.accounts[u].balance >= 0.0
    ensures Agree(db, ops) <==> forall ops' :: SameMembers(ops, ops') ==> Alike(Run(db, ops), Run(db, ops'))
  {
    if Agree(db, ops) {
      forall ops' | SameMembers(ops, ops') ensures Alike(Run(db, ops), Run(db, ops')) {
        AgreeingAlike(db, ops, ops');
      }
    } else {
      var c, d :| c in ops && d in ops && Payable(db, c) && Payable(db, d) && c.requestId == d.requestId && c != d;
      var ops' := DisagreeingDependOnOrder(db, ops, c, d);
    }
  }
}
