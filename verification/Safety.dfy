/**
 Safety over whole runs of the pipeline: what becomes of an accepted task, at every moment and once the file
 and the broker are empty.
 */
module Safety {
  import opened Sequences
  import opened Ledger
  import opened Delivery
  import opened Pipeline
  import Broker

  /** Some copy of the task still stands for it, in the queue, in flight, in a bucket or in the DLQ. */
  ghost predicate Standing(s: Sys, t: Task) {
    exists m, i :: 0 <= m < |s.messages| && s.messages[m].task == t && 0 <= i < |s.messages[m].lineage.copies|
                   && Broker.Standing(s.messages[m].lineage.copies[i].place)
  }

  /** No message left anywhere in the broker, the dead-letter queue included, and an empty file. */
  ghost predicate Drained(s: Sys) {
    s.enq.wal == [] && forall m :: 0 <= m < |s.messages| ==> s.messages[m].lineage.copies == []
  }

  lemma AcceptedStands(cfg: Broker.Config, s: Sys, t: Task)
    requires Inv(cfg, s) && t in s.enq.accepted
    ensures t in s.emitted
    ensures Pipeline.Done(s.world.db, s.bare, t) || t in s.enq.wal || Standing(s, t)
  {
    assert t in s.enq.primary + multiset(s.enq.wal);
    if t !in s.enq.wal {
      var m :| 0 <= m < |s.messages| && s.messages[m].task == t;
      assert MessageOk(cfg, s.world.db, s.emitted, s.bare, s.messages[m]);
      if !Pipeline.Done(s.world.db, s.bare, t) {
        var l := s.messages[m].lineage;
        var i :| 0 <= i < |l.copies| && Broker.Carries(l.copies[i]);
        assert Broker.Standing(l.copies[i].place);
      }
    }
  }

  /** At every moment of every run: an accepted task that moves money has its request's row, or is in the
      file, or stands in the broker, or was hidden by L2 behind a free settlement of its id; no request has two
      rows of a kind; and every settle or refund row is what some task whose transaction went through asked for. */
  lemma NeverLostNeverDoubled(cfg: Broker.Config, steps: seq<Step>, s: Sys)
    requires cfg.maxRetry < Broker.INT32_MAX && Pipeline.Run(cfg, INIT, steps, s)
    ensures forall t :: t in s.enq.accepted && t.amount != 0.0 ==>
              Charged(s.world.db, t) || t in s.enq.wal || Standing(s, t) || t in s.bare
    ensures Booked(s.world.db)
    ensures forall i :: 0 <= i < |s.world.db.ledger| && TaskRow(s.world.db.ledger[i]) ==>
              exists t :: t in s.passed && RowOf(s.world.db.ledger[i], t)
    ensures BareOk(s)
  {
    InitOk(cfg);
    RunKeeps(cfg, INIT, steps, s);
    LedgerMaterialised(s.log);
    forall t | t in s.enq.accepted && t.amount != 0.0
      ensures Charged(s.world.db, t) || t in s.enq.wal || Standing(s, t) || t in s.bare
    {
      AcceptedStands(cfg, s, t);
    }
    forall i | 0 <= i < |s.world.db.ledger| && TaskRow(s.world.db.ledger[i])
      ensures exists t :: t in s.passed && RowOf(s.world.db.ledger[i], t)
    {
      assert RowLogged(s.world.db.ledger[i], s.log, s.passed);
    }
  }

  /** A task's request was charged: exactly one row, which is what `payer`, a task of that request, asked. */
  ghost predicate OneRow(ledger: seq<Row>, t: Task, payer: Task) {
    && KeyOf(payer) == KeyOf(t)
    && exists i :: 0 <= i < |ledger| && RowOf(ledger[i], payer) && OnlyAt(ledger, t, i)
  }

  /** No other row is of t's kind and request. */
  ghost predicate OnlyAt(ledger: seq<Row>, t: Task, i: int) {
    forall j :: 0 <= j < |ledger| && ledger[j].kind == KindOf(t) && ledger[j].requestId == t.requestId ==> j == i
  }

  lemma OnlyRow(l: seq<Row>, t: Task, payer: Task, i: nat)
    requires RequestsUnique(l) && i < |l| && RowOf(l[i], payer) && KeyOf(payer) == KeyOf(t)
    ensures OneRow(l, t, payer)
  {
    SameKey(payer, t);
    forall j | 0 <= j < |l| && l[j].kind == KindOf(t) && l[j].requestId == t.requestId ensures j == i {
    }
  }

  lemma SameRequestSameKey(a: Task, b: Task)
    requires KindOf(a) == KindOf(b) && a.requestId == b.requestId
    ensures KeyOf(a) == KeyOf(b)
  {
  }

  /** The payload a charged request was charged for. */
  lemma Payer(l: seq<Row>, log: seq<Op>, passed: set<Task>, t: Task) returns (payer: Task)
    requires RowsLogged(l, log, passed) && RequestsUnique(l) && HasRow(l, KindOf(t), t.requestId)
    ensures payer in passed && payer.amount != 0.0 && OpOf(payer) in log && OneRow(l, t, payer)
  {
    var i :| 0 <= i < |l| && l[i].kind == KindOf(t) && l[i].requestId == t.requestId;
    assert RowLogged(l[i], log, passed);
    payer :| payer in passed && payer.amount != 0.0 && OpOf(payer) in log && RowOf(l[i], payer);
    SameRequestSameKey(payer, t);
    OnlyRow(l, t, payer, i);
  }

  // ── who pays ───────────────────────────────────────────────────────────────

  /** The step is the transaction of a worker that L2 did not answer, for a task of this kind and id in whose
      way nothing stands in the tables of the moment. */
  predicate CommitsAt(s: Sys, st: Step, kind: Kind, requestId: string) {
    && st.Commit? && Busy(s, st.k, Missed)
    && var t := TaskOf(s, st.k);
       KindOf(t) == kind && t.requestId == requestId && Chargeable(s.world.db, t)
  }

  /** The task of the first such transaction in a run. */
  function FirstCommit(cfg: Broker.Config, s: Sys, steps: seq<Step>, kind: Kind, requestId: string): Option<Task>
    decreases |steps|
  {
    if steps == [] || !Enabled(cfg, s, steps[0]) then None
    else if CommitsAt(s, steps[0], kind, requestId) then Some(TaskOf(s, steps[0].k))
    else FirstCommit(cfg, Next(cfg, s, steps[0]), steps[1..], kind, requestId)
  }

  ghost predicate HasRowOf(ledger: seq<Row>, t: Task) {
    exists i :: 0 <= i < |ledger| && RowOf(ledger[i], t)
  }

  lemma RowStays(l: seq<Row>, l': seq<Row>, kind: Kind, requestId: string)
    requires l <= l' && HasRow(l, kind, requestId)
    ensures HasRow(l', kind, requestId)
  {
    var i :| 0 <= i < |l| && l[i].kind == kind && l[i].requestId == requestId;
    assert l'[i] == l[i];
  }

  lemma RowOfStays(l: seq<Row>, l': seq<Row>, t: Task)
    requires l <= l' && HasRowOf(l, t)
    ensures HasRowOf(l', t)
  {
    var i :| 0 <= i < |l| && RowOf(l[i], t);
    assert l'[i] == l[i];
  }

  lemma CommitRow(cfg: Broker.Config, s: Sys, k: nat, kind: Kind, requestId: string)
    requires Booked(s.world.db) && Enabled(cfg, s, Step.Commit(k)) && (kind.Settle? || kind.Refund?)
    ensures
      var l, l' := s.world.db.ledger, Next(cfg, s, Step.Commit(k)).world.db.ledger;
      && l <= l'
      && (HasRow(l', kind, requestId) <==> HasRow(l, kind, requestId) || CommitsAt(s, Step.Commit(k), kind, requestId))
      && (CommitsAt(s, Step.Commit(k), kind, requestId) && !HasRow(l, kind, requestId) ==> HasRowOf(l', TaskOf(s, k)))
  {
    var t := TaskOf(s, k);
    forall u | u in s.world.db.accounts ensures s.world.db.accounts[u].balance >= 0.0 {
      BalanceNotNegative(s.world.db, u);
    }
    CommitSettles(s.world.db, t);
    ApplyRow(s.world.db, t, kind, requestId);
  }

  /** Rows come from transactions, and only the transactions of workers write these. */
  lemma StepRow(cfg: Broker.Config, s: Sys, st: Step, kind: Kind, requestId: string)
    requires Booked(s.world.db) && Enabled(cfg, s, st) && (kind.Settle? || kind.Refund?)
    ensures
      var l, l' := s.world.db.ledger, Next(cfg, s, st).world.db.ledger;
      && l <= l'
      && (HasRow(l', kind, requestId) <==> HasRow(l, kind, requestId) || CommitsAt(s, st, kind, requestId))
      && (CommitsAt(s, st, kind, requestId) && !HasRow(l, kind, requestId) ==> HasRowOf(l', TaskOf(s, st.k)))
  {
    match st
    case Commit(k) => CommitRow(cfg, s, k, kind, requestId);
    case Other(op) =>
      var l, l' := s.world.db.ledger, Next(cfg, s, st).world.db.ledger;
      OtherRow(s.world.db, op);
      if HasRow(l, kind, requestId) {
        RowStays(l, l', kind, requestId);
      }
    case _ => assert Next(cfg, s, st).world.db == s.world.db;
  }

  /** At the end of any run a request has its row if and only if it had one, or a worker that L2 had not
      answered reached its transaction with a task of it that the tables could charge; and the first such
      task is the one that is charged. */
  lemma {:induction false} RowIff(cfg: Broker.Config, s: Sys, steps: seq<Step>, s': Sys, kind: Kind, requestId: string)
    requires cfg.maxRetry < Broker.INT32_MAX && Inv(cfg, s) && Pipeline.Run(cfg, s, steps, s')
    requires kind.Settle? || kind.Refund?
    ensures s.world.db.ledger <= s'.world.db.ledger
    ensures
      var l, l' := s.world.db.ledger, s'.world.db.ledger;
      var first := FirstCommit(cfg, s, steps, kind, requestId);
      && (HasRow(l', kind, requestId) <==> HasRow(l, kind, requestId) || first.Some?)
      && (!HasRow(l, kind, requestId) && first.Some? ==>
            && KindOf(first.value) == kind && first.value.requestId == requestId
            && first.value.amount > 0.0 && HasRowOf(l', first.value))
    decreases |steps|
  {
    if steps != [] {
      var m := Next(cfg, s, steps[0]);
      LedgerMaterialised(s.log);
      StepRow(cfg, s, steps[0], kind, requestId);
      NextKeeps(cfg, s, steps[0]);
      RowIff(cfg, m, steps[1..], s', kind, requestId);
      if CommitsAt(s, steps[0], kind, requestId) {
        RowStays(m.world.db.ledger, s'.world.db.ledger, kind, requestId);
        if !HasRow(s.world.db.ledger, kind, requestId) {
          RowOfStays(m.world.db.ledger, s'.world.db.ledger, TaskOf(s, steps[0].k));
        }
      }
    }
  }

  /** A request is charged if and only if such a transaction was reached, and then it has one row, for what
      the first task to reach it asked. */
  ghost predicate ChargedFirst(cfg: Broker.Config, steps: seq<Step>, s: Sys, t: Task) {
    var first := FirstCommit(cfg, INIT, steps, KindOf(t), t.requestId);
    && (Charged(s.world.db, t) <==> first.Some?)
    && (first.Some? ==> first.value in s.passed && OpOf(first.value) in s.log
                        && OneRow(s.world.db.ledger, t, first.value))
  }

  lemma FirstIsPayer(cfg: Broker.Config, steps: seq<Step>, s: Sys, t: Task)
    requires cfg.maxRetry < Broker.INT32_MAX && Pipeline.Run(cfg, INIT, steps, s)
    ensures ChargedFirst(cfg, steps, s, t)
  {
    InitOk(cfg);
    RunKeeps(cfg, INIT, steps, s);
    LedgerMaterialised(s.log);
    RowIff(cfg, INIT, steps, s, KindOf(t), t.requestId);
    var first := FirstCommit(cfg, INIT, steps, KindOf(t), t.requestId);
    if first.Some? {
      var l := s.world.db.ledger;
      var i :| 0 <= i < |l| && RowOf(l[i], first.value);
      assert RowLogged(l[i], s.log, s.passed);
      SameRequestSameKey(first.value, t);
      OnlyRow(l, t, first.value, i);
    }
  }

  /** End to end, whatever ids and payloads the clients send: once the file and the broker are empty, with
      crashes, duplicates, expiring L2 records and other writers at every step, the request of every accepted
      task that moves money has a row if and only if some worker that L2 had not answered reached its
      transaction with a task of that request that the tables could charge; it is then the one row of the
      request, for exactly what the first task to get there asked.  Otherwise the task is a settlement that
      L2 hid behind a free one of its id.  The tables are what the other transactions together with one
      transaction per request produce. */
  lemma EndToEnd(cfg: Broker.Config, steps: seq<Step>, s: Sys)
    requires cfg.maxRetry < Broker.INT32_MAX && Pipeline.Run(cfg, INIT, steps, s) && Drained(s)
    ensures forall t :: t in s.enq.accepted && t.amount != 0.0 ==>
              && ChargedFirst(cfg, steps, s, t)
              && (!Charged(s.world.db, t) ==> t in s.bare && t.SettleTask? && FreeTwinPassed(s.passed, t))
    ensures s.world.db == Ledger.Run(EMPTY_DB, s.log) && Booked(s.world.db)
    ensures forall i :: 0 <= i < |s.log| && TaskOp(s.log[i]) ==> exists t :: t in s.passed && s.log[i] == OpOf(t)
    ensures s.passed <= s.emitted && LogDistinct(s.log)
  {
    NeverLostNeverDoubled(cfg, steps, s);
    InitOk(cfg);
    RunKeeps(cfg, INIT, steps, s);
    forall t | t in s.enq.accepted && t.amount != 0.0
      ensures ChargedFirst(cfg, steps, s, t)
      ensures !Charged(s.world.db, t) ==> t in s.bare && t.SettleTask? && FreeTwinPassed(s.passed, t)
    {
      FirstIsPayer(cfg, steps, s, t);
      AcceptedStands(cfg, s, t);
    }
    forall i | 0 <= i < |s.log| && TaskOp(s.log[i]) ensures exists t :: t in s.passed && s.log[i] == OpOf(t) {
      assert OpLogged(s.world.db.ledger, s.log[i], s.passed);
    }
  }

  /** No free settlement among the tasks shares its id with a costly one. */
  ghost predicate TwinFree(emitted: set<Task>) {
    forall f, t :: f in emitted && t in emitted && Free(f) && t.SettleTask? && f.requestId == t.requestId ==>
        t.amount == 0.0
  }

  lemma NoTwinPassed(s: Sys, t: Task)
    requires TwinFree(s.emitted) && s.passed <= s.emitted && t in s.emitted && t.SettleTask? && t.amount != 0.0
    ensures !FreeTwinPassed(s.passed, t)
  {
  }

  /** When no free settlement shares its id with a costly call, every accepted task that moves money has its
      request's one row. */
  lemma NoTwinsAllCharged(cfg: Broker.Config, steps: seq<Step>, s: Sys)
    requires cfg.maxRetry < Broker.INT32_MAX && Pipeline.Run(cfg, INIT, steps, s) && Drained(s)
    requires TwinFree(s.emitted)
    ensures forall t :: t in s.enq.accepted && t.amount != 0.0 ==>
              Charged(s.world.db, t) && ChargedFirst(cfg, steps, s, t)
  {
    EndToEnd(cfg, steps, s);
    InitOk(cfg);
    RunKeeps(cfg, INIT, steps, s);
    forall t | t in s.enq.accepted && t.amount != 0.0 ensures Charged(s.world.db, t) {
      AcceptedStands(cfg, s, t);
      assert t.SettleTask? ==> !FreeTwinPassed(s.passed, t) by {
        if t.SettleTask? {
          NoTwinPassed(s, t);
        }
      }
    }
  }
}
