/**
 One delivery of a settle or refund task to a worker, with the expiring result cache (L2) in front of
 the unique ledger row (L3), and a fault that may stop the handler between any two of its effects.
 */
module Delivery {
  import opened Sequences
  import opened Ledger

  /** 24 hours, in seconds. */
  const IDEM_TTL := 86400

  /** A decoded settle or refund payload; for a settlement the amount is the worker's own recomputation. */
  datatype Task =
    | SettleTask(requestId: string, user: int, amount: Money)
    | RefundTask(requestId: string, user: int, amount: Money)

  datatype IdemKey = IdemKey(scope: string, key: string)

  /** Where the handler stops: not at all, before its transaction commits, after the commit but before
      the L2 record, or after the L2 record but before the balance cache is dropped.  A stopped handler
      is a crashed worker or an error return; either way the task is delivered again. */
  datatype Fault = Complete | BeforeCommit | AfterCommit | AfterRecord

  /** db: the tables.  records: L2 with expiry times.  cached: users whose balance:{id} key exists. */
  datatype World = World(db: Db, records: map<IdemKey, int>, now: int, cached: set<int>)

  function KeyOf(t: Task): IdemKey {
    if t.SettleTask? then IdemKey("settle", "settle:" + t.requestId) else IdemKey("refund", "refund:" + t.requestId)
  }

  predicate WellFormed(t: Task) {
    t.requestId != "" && t.user > 0 && (t.RefundTask? ==> t.amount >= 0.0)
  }

  /** Expired records read as absent. */
  predicate Live(w: World, k: IdemKey) {
    k in w.records && w.records[k] > w.now
  }

  /** The database part of a delivery, with nothing in front of it. */
  function Apply(db: Db, t: Task): (Db, Outcome) {
    if !WellFormed(t) || t.amount < 0.0 then (db, Failed(BadInput))
    else if t.SettleTask? then SettleTx(db, t.user, t.requestId, t.amount)
    else if t.amount == 0.0 then (db, Done(false))
    else RefundTx(db, t.user, t.requestId, t.amount)
  }

  /** A zero refund returns before L2; every other success records and drops the cache. */
  predicate Records(t: Task) {
    t.RefundTask? ==> t.amount != 0.0
  }

  function Commit(w: World, t: Task): (World, Outcome) {
    var (db', out) := Apply(w.db, t);
    (w.(db := db'), out)
  }

  /** The L2 key must fit its column. */
  predicate Recordable(t: Task) {
    |KeyOf(t).key| <= MAX_IDEM_KEY
  }

  function Record(w: World, t: Task): World {
    w.(records := w.records[KeyOf(t) := w.now + IDEM_TTL])
  }

  function Drop(w: World, t: Task): World {
    w.(cached := w.cached - {t.user})
  }

  /** The handler: L2 lookup, transaction, L2 record, cache drop.  True means the task is acknowledged. */
  function Deliver(w: World, t: Task, f: Fault): (World, bool) {
    if !WellFormed(t) || f == BeforeCommit then (w, false)
    else if Live(w, KeyOf(t)) then (w, true)
    else
      var (w1, out) := Commit(w, t);
      if out.Failed? then (w1, false)
      else if !Records(t) then (w1, true)
      else if f == AfterCommit || !Recordable(t) then (w1, false)
      else
        var w2 := Record(w1, t);
        if f == AfterRecord then (w2, false) else (Drop(w2, t), true)
  }

  datatype Event =
    | Delivered(task: Task, fault: Fault)
    | Tick(seconds: nat)
    | Cleanup
    | Cached(user: int)

  function Step(w: World, e: Event): World {
    match e
    case Delivered(t, f) => Deliver(w, t, f).0
    case Tick(n) => w.(now := w.now + n)
    case Cleanup => w.(records := map k | k in w.records && w.records[k] > w.now :: w.records[k])
    case Cached(u) => w.(cached := w.cached + {u})
  }

  function Run(w: World, es: seq<Event>): World {
    if es == [] then w else Step(Run(w, es[..|es| - 1]), es[|es| - 1])
  }

  predicate Attempt(e: Event) {
    e.Delivered? && e.fault != BeforeCommit
  }

  /** The tasks whose delivery got as far as the transaction or its L2 answer. */
  function Attempts(es: seq<Event>): seq<Task> {
    if es == [] then []
    else
      var e := es[|es| - 1];
      Attempts(es[..|es| - 1]) + if Attempt(e) then [e.task] else []
  }

  function ApplyAll(db: Db, ts: seq<Task>): Db {
    if ts == [] then db else Apply(ApplyAll(db, ts[..|ts| - 1]), ts[|ts| - 1]).0
  }

  lemma ApplyAllSnoc(db: Db, ts: seq<Task>, t: Task)
    ensures ApplyAll(db, ts + [t]) == Apply(ApplyAll(db, ts), t).0
  {
    assert (ts + [t])[..|ts|] == ts;
  }

  function KindOf(t: Task): Kind {
    if t.SettleTask? then Settle else Refund
  }

  predicate Charged(db: Db, t: Task) {
    HasRow(db.ledger, KindOf(t), t.requestId)
  }

  /** A settlement that costs nothing: it is recorded in L2 and leaves no row. */
  predicate Free(t: Task) {
    t.SettleTask? && t.amount == 0.0
  }

  /** A free settlement and a costly one under one request id. */
  predicate FreeTwins(free: Task, costly: Task) {
    Free(free) && costly.SettleTask? && costly.amount > 0.0 && free.requestId == costly.requestId
  }

  ghost predicate NoFreeTwins(ts: seq<Task>) {
    forall t, t' :: t in ts && t' in ts ==> !FreeTwins(t, t')
  }

  /** What an L2 record of a task can be there for. */
  predicate Explains(db: Db, t: Task) {
    Charged(db, t) || Free(t)
  }

  lemma SameKey(s: Task, t: Task)
    requires KeyOf(s) == KeyOf(t)
    ensures KindOf(s) == KindOf(t) && s.requestId == t.requestId
  {
    assert KeyOf(s).key[7..] == s.requestId && KeyOf(t).key[7..] == t.requestId;
  }

  /** Applying t again would find its row, or nothing to do, or the same refusal. */
  predicate Absorbed(db: Db, t: Task) {
    || !WellFormed(t) || t.amount <= 0.0
    || t.user !in db.accounts
    || |t.requestId| > MAX_REQUEST_ID
    || Charged(db, t)
  }

  ghost predicate NonNegativeBalances(db: Db) {
    forall u :: u in db.accounts ==> db.accounts[u].balance >= 0.0
  }

  lemma AbsorbedIsNoOp(db: Db, t: Task)
    requires Absorbed(db, t)
    ensures Apply(db, t).0 == db
  {
  }

  lemma AppliedIsAbsorbed(db: Db, t: Task)
    requires NonNegativeBalances(db)
    ensures Absorbed(Apply(db, t).0, t) && NonNegativeBalances(Apply(db, t).0)
  {
    var (db', out) := Apply(db, t);
    if out == Done(true) {
      assert db'.ledger[|db.ledger|].requestId == t.requestId;
    }
  }

  lemma ChargedStays(db: Db, db': Db, t: Task)
    requires Charged(db, t) && db.ledger <= db'.ledger
    ensures Charged(db', t)
  {
    var i :| 0 <= i < |db.ledger| && db.ledger[i].kind == KindOf(t) && db.ledger[i].requestId == t.requestId;
    assert db'.ledger[i] == db.ledger[i];
  }

  lemma AbsorbedStays(db: Db, s: Task, t: Task)
    requires Absorbed(db, t)
    ensures Absorbed(Apply(db, s).0, t)
  {
    var db' := Apply(db, s).0;
    assert db'.accounts.Keys == db.accounts.Keys && db.ledger <= db'.ledger;
    if Charged(db, t) {
      ChargedStays(db, db', t);
    }
  }

  /** A delivery that gets past its transaction and is to be recorded has a row, or is free. */
  lemma AppliedExplains(db: Db, t: Task)
    requires !Apply(db, t).1.Failed? && Records(t)
    ensures Explains(Apply(db, t).0, t)
  {
    var (db', out) := Apply(db, t);
    if out == Done(true) {
      assert db'.ledger[|db.ledger|].requestId == t.requestId;
    }
  }

  /** L2 holds records only of attempted tasks that left a row, or are free. */
  ghost predicate RecordsExplained(w: World, attempts: seq<Task>) {
    forall k :: k in w.records ==> exists t :: t in attempts && KeyOf(t) == k && Explains(w.db, t)
  }

  /** What the run keeps: the tables are the attempts with duplicates removed, every attempt is absorbed,
      and every L2 record is explained. */
  ghost predicate Refines(db0: Db, w: World, attempts: seq<Task>) {
    && w.db == ApplyAll(db0, FirstOccurrences(attempts))
    && NonNegativeBalances(w.db)
    && (forall t :: t in attempts ==> Absorbed(w.db, t))
    && RecordsExplained(w, attempts)
  }

  /** What one delivery does, seen from the tables and from L2. */
  lemma DeliverEffect(w: World, t: Task, f: Fault)
    ensures
      var w' := Deliver(w, t, f).0;
      && w'.db == (if f == BeforeCommit || Live(w, KeyOf(t)) then w.db else Apply(w.db, t).0)
      && w.db.ledger <= w'.db.ledger
      && (forall k :: k in w'.records ==> k in w.records || (k == KeyOf(t) && f != BeforeCommit && Explains(w'.db, t)))
  {
    if !WellFormed(t) {
      assert Apply(w.db, t).0 == w.db;
    } else if !Apply(w.db, t).1.Failed? && Records(t) {
      AppliedExplains(w.db, t);
    }
  }

  /** The tables of a delivery, for a task seen before and for a new one. */
  lemma DeliveryTables(db0: Db, attempts: seq<Task>, t: Task, db: Db)
    requires db == ApplyAll(db0, FirstOccurrences(attempts)) && (t in attempts ==> Absorbed(db, t))
    ensures Apply(db, t).0 == ApplyAll(db0, FirstOccurrences(attempts + [t]))
    ensures t in attempts ==> Apply(db, t).0 == db
  {
    FirstOccurrencesSnoc(attempts, t);
    if t in attempts {
      AbsorbedIsNoOp(db, t);
    } else {
      ApplyAllSnoc(db0, FirstOccurrences(attempts), t);
    }
  }

  /** Without free twins L2 answers only for a task that has nothing left to do. */
  lemma AnsweredIsAbsorbed(w: World, attempts: seq<Task>, t: Task)
    requires RecordsExplained(w, attempts) && NoFreeTwins(attempts + [t]) && Live(w, KeyOf(t))
    ensures Absorbed(w.db, t)
  {
    var s :| s in attempts && KeyOf(s) == KeyOf(t) && Explains(w.db, s);
    SameKey(s, t);
    assert s in attempts + [t] && t in attempts + [t];
    assert !FreeTwins(s, t);
  }

  lemma ExplainedStays(w: World, w': World, attempts: seq<Task>, t: Task)
    requires RecordsExplained(w, attempts) && w.db.ledger <= w'.db.ledger
    requires forall k :: k in w'.records ==> k in w.records || (k == KeyOf(t) && Explains(w'.db, t))
    ensures RecordsExplained(w', attempts + [t])
  {
    forall k | k in w'.records ensures exists s :: s in attempts + [t] && KeyOf(s) == k && Explains(w'.db, s) {
      if k in w.records {
        var s :| s in attempts && KeyOf(s) == k && Explains(w.db, s);
        if Charged(w.db, s) {
          ChargedStays(w.db, w'.db, s);
        }
        assert s in attempts + [t];
      } else {
        assert t in attempts + [t];
      }
    }
  }

  lemma DeliveryRefines(db0: Db, w: World, attempts: seq<Task>, t: Task, w': World)
    requires Refines(db0, w, attempts) && NoFreeTwins(attempts + [t])
    requires w'.db == if Live(w, KeyOf(t)) then w.db else Apply(w.db, t).0
    requires w.db.ledger <= w'.db.ledger
    requires forall k :: k in w'.records ==> k in w.records || (k == KeyOf(t) && Explains(w'.db, t))
    ensures Refines(db0, w', attempts + [t])
  {
    DeliveryTables(db0, attempts, t, w.db);
    if Live(w, KeyOf(t)) {
      AnsweredIsAbsorbed(w, attempts, t);
      AbsorbedIsNoOp(w.db, t);
    }
    ExplainedStays(w, w', attempts, t);
    AppliedIsAbsorbed(w.db, t);
    forall s | s in attempts + [t] ensures Absorbed(w'.db, s) {
      if s != t {
        AbsorbedStays(w.db, t, s);
      }
    }
  }

  lemma StepRefines(db0: Db, w: World, attempts: seq<Task>, e: Event)
    requires Refines(db0, w, attempts)
    requires Attempt(e) ==> NoFreeTwins(attempts + [e.task])
    ensures Refines(db0, Step(w, e), if Attempt(e) then attempts + [e.task] else attempts)
  {
    match e
    case Delivered(t, f) =>
      DeliverEffect(w, t, f);
      if f != BeforeCommit {
        DeliveryRefines(db0, w, attempts, t, Deliver(w, t, f).0);
      }
    case _ =>
  }

  lemma {:induction false} RunRefines(w: World, es: seq<Event>)
    requires w.records == map[] && NonNegativeBalances(w.db) && NoFreeTwins(Attempts(es))
    ensures Refines(w.db, Run(w, es), Attempts(es))
  {
    if es != [] {
      var init, e := es[..|es| - 1], es[|es| - 1];
      assert forall t :: t in Attempts(init) ==> t in Attempts(es);
      RunRefines(w, init);
      StepRefines(w.db, Run(w, init), Attempts(init), e);
      assert Attempts(es) == if Attempt(e) then Attempts(init) + [e.task] else Attempts(init);
    }
  }

  /** Exactly-once effect: duplicates, crashes between any two effects, expiring or cleaned L2 records, cache
      traffic and payloads that disagree leave the balances and the ledger of the first attempts alone, in
      their order, as long as no free settlement shares its request id with a costly one. */
  lemma ExactlyOnce(w: World, es: seq<Event>)
    requires w.records == map[] && NonNegativeBalances(w.db) && NoFreeTwins(Attempts(es))
    ensures Run(w, es).db == ApplyAll(w.db, FirstOccurrences(Attempts(es)))
  {
    RunRefines(w, es);
  }

  // ── who is charged, without any assumption on the payloads ─────────────────

  /** Nothing in the tables stands in the way of t's row. */
  predicate Chargeable(db: Db, t: Task) {
    WellFormed(t) && t.amount > 0.0 && t.user in db.accounts && |t.requestId| <= MAX_REQUEST_ID
  }

  /** Event i is a delivery of a chargeable task of this kind and id that finds no live L2 record. */
  predicate PassesAt(w: World, es: seq<Event>, kind: Kind, requestId: string, i: nat)
    requires i < |es|
  {
    && Attempt(es[i]) && KindOf(es[i].task) == kind && es[i].task.requestId == requestId
    && Chargeable(w.db, es[i].task) && !Live(Run(w, es[..i]), KeyOf(es[i].task))
  }

  predicate Passes(w: World, es: seq<Event>, kind: Kind, requestId: string) {
    exists i :: 0 <= i < |es| && PassesAt(w, es, kind, requestId, i)
  }

  lemma PassesSnoc(w: World, es: seq<Event>, kind: Kind, requestId: string)
    requires es != []
    ensures Passes(w, es, kind, requestId) <==>
            Passes(w, es[..|es| - 1], kind, requestId) || PassesAt(w, es, kind, requestId, |es| - 1)
  {
    var n := |es| - 1;
    if Passes(w, es[..n], kind, requestId) {
      var i :| 0 <= i < n && PassesAt(w, es[..n], kind, requestId, i);
      assert es[..n][..i] == es[..i];
      assert PassesAt(w, es, kind, requestId, i);
    }
    if Passes(w, es, kind, requestId) && !PassesAt(w, es, kind, requestId, n) {
      var i :| 0 <= i < |es| && PassesAt(w, es, kind, requestId, i);
      assert es[..n][..i] == es[..i];
      assert PassesAt(w, es[..n], kind, requestId, i);
    }
  }

  /** The row a single application writes. */
  lemma ApplyRow(db: Db, t: Task, kind: Kind, requestId: string)
    requires NonNegativeBalances(db) && (kind.Settle? || kind.Refund?)
    ensures
      var db' := Apply(db, t).0;
      && db'.accounts.Keys == db.accounts.Keys && NonNegativeBalances(db')
      && (HasRow(db'.ledger, kind, requestId) <==>
            HasRow(db.ledger, kind, requestId) || (Chargeable(db, t) && KindOf(t) == kind && t.requestId == requestId))
  {
    var (db', out) := Apply(db, t);
    if HasRow(db.ledger, kind, requestId) {
      var i :| 0 <= i < |db.ledger| && db.ledger[i].kind == kind && db.ledger[i].requestId == requestId;
      assert db'.ledger[i] == db.ledger[i];
    }
    if out == Done(true) {
      assert db'.ledger[|db.ledger|].requestId == t.requestId && db'.ledger[|db.ledger|].kind == KindOf(t);
    }
  }

  /** Whatever the payloads: a request ends with its row if and only if it had one, or some delivery of it
      that costs something and can be charged finds no live L2 record and is not stopped before its
      transaction.  A delivery is one step here; with its lookup and its transaction apart, see Safety.RowIff. */
  lemma {:induction false} RowIff(w: World, es: seq<Event>, kind: Kind, requestId: string)
    requires NonNegativeBalances(w.db) && (kind.Settle? || kind.Refund?)
    ensures
      var db := Run(w, es).db;
      && db.accounts.Keys == w.db.accounts.Keys && NonNegativeBalances(db)
      && (HasRow(db.ledger, kind, requestId) <==>
          HasRow(w.db.ledger, kind, requestId) || Passes(w, es, kind, requestId))
  {
    if es != [] {
      var n := |es| - 1;
      RowIff(w, es[..n], kind, requestId);
      PassesSnoc(w, es, kind, requestId);
      var mid := Run(w, es[..n]);
      if es[n].Delivered? {
        DeliverEffect(mid, es[n].task, es[n].fault);
        ApplyRow(mid.db, es[n].task, kind, requestId);
      }
    }
  }

  lemma {:induction false} RunExplained(w: World, es: seq<Event>)
    requires w.records == map[]
    ensures RecordsExplained(Run(w, es), Attempts(es))
  {
    if es != [] {
      var init, e := es[..|es| - 1], es[|es| - 1];
      RunExplained(w, init);
      if e.Delivered? {
        DeliverEffect(Run(w, init), e.task, e.fault);
        if Attempt(e) {
          ExplainedStays(Run(w, init), Run(w, es), Attempts(init), e.task);
        } else {
          assert Run(w, es) == Run(w, init) && Attempts(es) == Attempts(init);
        }
      } else {
        assert Attempts(es) == Attempts(init);
      }
    }
  }

  /** And L2 can stand in the way of an uncharged task only after a free settlement of its id. */
  lemma AnsweredUncharged(w: World, es: seq<Event>, t: Task)
    requires w.records == map[] && Live(Run(w, es), KeyOf(t)) && !Charged(Run(w, es).db, t)
    ensures t.SettleTask? && exists f :: f in Attempts(es) && Free(f) && f.requestId == t.requestId
  {
    RunExplained(w, es);
    var s :| s in Attempts(es) && KeyOf(s) == KeyOf(t) && Explains(Run(w, es).db, s);
    SameKey(s, t);
  }

  lemma RunThree(w: World, a: Event, b: Event, c: Event)
    ensures Run(w, [a, b, c][..2]) == Step(Step(w, a), b)
    ensures Run(w, [a, b, c]) == Step(Step(Step(w, a), b), c)
  {
    var es := [a, b, c];
    assert es[..2][..1] == [a] && [a][..0] == [] && es[..3] == es;
    assert Run(w, [a]) == Step(Run(w, []), a);
    assert Run(w, es[..2]) == Step(Run(w, [a]), b);
  }

  lemma TwinAttempts(f: Task, c: Task, n: nat)
    requires f != c
    ensures FirstOccurrences(Attempts([Delivered(f, Complete), Tick(n), Delivered(c, Complete)])) == [f, c]
  {
    var es := [Delivered(f, Complete), Tick(n), Delivered(c, Complete)];
    assert es[..2][..1] == [es[0]] && [es[0]][..0] == [];
    assert Attempts([es[0]]) == [] + [f] == [f];
    assert Attempts(es[..2]) == [f] + [] == [f];
    assert Attempts(es) == [f] + [c];
    assert [f][..0] == [] && FirstOccurrences([f]) == [f];
    FirstOccurrencesSnoc([f], c);
  }

  /** A free settlement leaves the tables and a record for exactly 24 hours. */
  lemma FreeRecords(w: World, f: Task, n: nat)
    requires Free(f) && WellFormed(f) && |f.requestId| <= MAX_REQUEST_ID && !Live(w, KeyOf(f))
    ensures
      var later := Step(Step(w, Delivered(f, Complete)), Tick(n));
      later.db == w.db && (Live(later, KeyOf(f)) <==> n < IDEM_TTL)
  {
    assert |KeyOf(f).key| == 7 + |f.requestId|;
  }

  /** The free twin at work: after a free settlement a costly one of its id, even another customer's, is
      acknowledged without a row for exactly the 24 hours its record lives.  So the tables are then not those
      of the two tasks applied once each, and the assumption of ExactlyOnce is needed. */
  lemma FreeTwinHides(w: World, f: Task, c: Task, n: nat)
    requires FreeTwins(f, c) && WellFormed(f) && Chargeable(w.db, c)
    requires w.records == map[] && NonNegativeBalances(w.db) && !Charged(w.db, c)
    ensures
      var es := [Delivered(f, Complete), Tick(n), Delivered(c, Complete)];
      && Deliver(Run(w, es[..2]), c, Complete).1
      && (Charged(Run(w, es).db, c) <==> n >= IDEM_TTL)
      && (Run(w, es).db == ApplyAll(w.db, FirstOccurrences(Attempts(es))) <==> n >= IDEM_TTL)
  {
    RunThree(w, Delivered(f, Complete), Tick(n), Delivered(c, Complete));
    FreeRecords(w, f, n);
    TwinAttempts(f, c, n);
    assert [f, c] == [] + [f] + [c];
    ApplyAllSnoc(w.db, [] + [f], c);
    ApplyAllSnoc(w.db, [], f);
    assert Apply(w.db, f).0 == w.db;
    ApplyRow(w.db, c, Settle, c.requestId);
    TwinDelivered(Run(w, [Delivered(f, Complete), Tick(n), Delivered(c, Complete)][..2]), c);
  }

  lemma TwinDelivered(w: World, c: Task)
    requires Chargeable(w.db, c) && NonNegativeBalances(w.db) && !Charged(w.db, c)
    ensures Deliver(w, c, Complete).1
    ensures Deliver(w, c, Complete).0.db == if Live(w, KeyOf(c)) then w.db else Apply(w.db, c).0
  {
    assert |KeyOf(c).key| == 7 + |c.requestId|;
  }

  /** Two costly settlements of one id: only the payload that commits first is charged. */
  lemma FirstPayloadWins(w: World, t: Task, t': Task)
    requires t.SettleTask? && t'.SettleTask? && t.requestId == t'.requestId
    requires w.records == map[] && NonNegativeBalances(w.db) && !Charged(w.db, t)
    requires Chargeable(w.db, t) && WellFormed(t') && t'.amount > 0.0
    ensures Run(w, [Delivered(t, Complete), Delivered(t', Complete)]).db == Apply(w.db, t).0
  {
    var es := [Delivered(t, Complete), Delivered(t', Complete)];
    assert es[..1] == [Delivered(t, Complete)] && es[..1][..0] == [];
    assert Run(w, es[..1]) == Step(Run(w, []), es[0]);
    AppliedIsAbsorbed(w.db, t);
  }

  /** When an uninterrupted delivery of a settlement nobody has settled yet writes its row and is
      acknowledged: exactly when the payload is complete, the cost is positive, the customer has a balance
      row and the request id fits the column.  Any other such task is refused, except a
      zero cost one, which is acknowledged without a row while its L2 key fits. */
  lemma SettledIff(w: World, t: Task)
    requires t.SettleTask? && !Live(w, KeyOf(t)) && !HasRow(w.db.ledger, Settle, t.requestId)
    ensures
      var (w', ok) := Deliver(w, t, Complete);
      && (HasRow(w'.db.ledger, Settle, t.requestId) <==>
            WellFormed(t) && t.amount > 0.0 && t.user in w.db.accounts && |t.requestId| <= MAX_REQUEST_ID)
      && (ok <==> WellFormed(t) && ((t.amount == 0.0 && |KeyOf(t).key| <= MAX_IDEM_KEY) ||
                                    (t.amount > 0.0 && t.user in w.db.accounts && |t.requestId| <= MAX_REQUEST_ID)))
  {
    var (db', out) := Apply(w.db, t);
    assert |KeyOf(t).key| == 7 + |t.requestId|;
    if out == Done(true) {
      assert db'.ledger[|w.db.ledger|].requestId == t.requestId;
    }
  }

  /** Something acknowledging t can rest on: it moves nothing and is a refund or fits L2, or its customer has a
      balance row and its id fits the column. */
  predicate Settleable(db: Db, t: Task) {
    && t.requestId != "" && t.user > 0 && t.amount >= 0.0
    && if t.amount == 0.0 then t.RefundTask? || Recordable(t)
       else t.user in db.accounts && |t.requestId| <= MAX_REQUEST_ID
  }

  /** When an uninterrupted delivery is acknowledged: L2 answers for the complete task, or it is settleable,
      its row being there already or not.  Unless L2 answered, or it is a refund of nothing, it then leaves a
      live record and no balance cache; and a task that moves money has its row, unless L2 answered. */
  lemma AcknowledgedIff(w: World, t: Task)
    requires NonNegativeBalances(w.db)
    ensures
      var (w', ok) := Deliver(w, t, Complete);
      && (ok <==>
            || (Live(w, KeyOf(t)) && t.requestId != "" && t.user > 0 && (t.RefundTask? ==> t.amount >= 0.0))
            || (!Live(w, KeyOf(t)) && Settleable(w.db, t)))
      && (ok && !Live(w, KeyOf(t)) ==>
            && (t.amount != 0.0 ==> Charged(w'.db, t))
            && (if Records(t) then Live(w', KeyOf(t)) && w'.cached == w.cached - {t.user} else w' == w))
      && (Live(w, KeyOf(t)) || !ok ==> w'.cached == w.cached && w'.records == w.records)
      && (forall k :: k != KeyOf(t) ==> (Live(w', k) <==> Live(w, k)))
  {
    var (db', out) := Apply(w.db, t);
    assert |KeyOf(t).key| == 7 + |t.requestId|;
    if out == Done(true) {
      assert db'.ledger[|w.db.ledger|].requestId == t.requestId;
    }
  }

  /** The same for a delivery stopped at f: it is acknowledged only if L2 answered or there was nothing to
      refund; the tables are those of the whole delivery once its transaction was reached; the record is there
      once it was written; and the cache is never dropped. */
  lemma StoppedDelivery(w: World, t: Task, f: Fault)
    requires NonNegativeBalances(w.db) && f != Complete
    ensures
      var (w', ok) := Deliver(w, t, f);
      && (ok <==> f != BeforeCommit && WellFormed(t) && (Live(w, KeyOf(t)) || !Records(t)))
      && w'.db == (if f == BeforeCommit then w.db else Deliver(w, t, Complete).0.db)
      && (Live(w', KeyOf(t)) <==>
            Live(w, KeyOf(t)) || (f == AfterRecord && Records(t) && Deliver(w, t, Complete).1))
      && w'.cached == w.cached && w'.now == w.now
  {
    AcknowledgedIff(w, t);
    assert |KeyOf(t).key| == 7 + |t.requestId|;
  }

  lemma DeliveryKeepsAccounts(w: World, t: Task, f: Fault)
    requires NonNegativeBalances(w.db)
    ensures Deliver(w, t, f).0.db.accounts.Keys == w.db.accounts.Keys && NonNegativeBalances(Deliver(w, t, f).0.db)
  {
    ApplyRow(w.db, t, Settle, "");
  }

  lemma {:induction false} RunKeepsAccounts(w: World, es: seq<Event>)
    requires NonNegativeBalances(w.db)
    ensures Run(w, es).db.accounts.Keys == w.db.accounts.Keys && NonNegativeBalances(Run(w, es).db)
  {
    if es != [] {
      RunKeepsAccounts(w, es[..|es| - 1]);
      if es[|es| - 1].Delivered? {
        DeliveryKeepsAccounts(Run(w, es[..|es| - 1]), es[|es| - 1].task, es[|es| - 1].fault);
      }
    }
  }

  /** Nothing that happens before takes that away: whatever was delivered, duplicated, stopped and forgotten
      until then, a task settleable at the start is acknowledged the first time its delivery is not
      interrupted, so no duplicate is ever retried into the dead-letter queue. */
  lemma NeverStuck(w: World, es: seq<Event>, t: Task)
    requires NonNegativeBalances(w.db) && Settleable(w.db, t)
    ensures Deliver(Run(w, es), t, Complete).1
  {
    RunKeepsAccounts(w, es);
    AcknowledgedIff(Run(w, es), t);
  }

  /** The balance cache after an acknowledged delivery: dropped unless L2 answered.  So a worker that dies
      between its L2 record and the cache drop leaves the key, and the redelivery does not remove it. */
  lemma CacheDroppedIff(w: World, t: Task, f: Fault)
    requires Records(t) && Deliver(w, t, f).1 && t.user in w.cached
    ensures t.user !in Deliver(w, t, f).0.cached <==> !Live(w, KeyOf(t))
  {
  }

  /** After a delivery that went through, L2 answers redeliveries for exactly 24 hours; from then on only the
      unique row stands between a redelivery and a second charge. */
  lemma AnsweredForADay(w: World, t: Task, n: nat)
    requires Records(t) && !Live(w, KeyOf(t)) && Deliver(w, t, Complete).1
    ensures
      var later := Step(Deliver(w, t, Complete).0, Tick(n));
      && (Live(later, KeyOf(t)) <==> n < 24 * 60 * 60)
      && Live(Step(later, Cleanup), KeyOf(t)) == Live(later, KeyOf(t))
  {
  }

  lemma StaleCacheSurvives(w: World, t: Task)
    requires Deliver(w, t, Complete).1 && !Live(w, KeyOf(t)) && Records(t) && t.user in w.cached
    ensures
      var es := [Delivered(t, AfterRecord), Delivered(t, Complete)];
      t.user in Run(w, es).cached && Deliver(Run(w, es[..1]), t, Complete).1
  {
    var es := [Delivered(t, AfterRecord), Delivered(t, Complete)];
    assert es[..1] == [Delivered(t, AfterRecord)] && es[..1][..0] == [];
    assert Run(w, es[..1]) == Step(Run(w, []), es[0]);
  }
}
