/**
 Calls against rows: when every call is charged, and the runs in which one is not.  Request ids come from the
 clients, and one id can be charged only once.
 */
module Calls {
  import opened Sequences
  import opened Ledger
  import opened Delivery
  import opened Pipeline
  import opened Safety
  import WalProtocol
  import Broker

  /** How many rows charge exactly this task. */
  function RowCount(l: seq<Row>, t: Task): nat {
    if l == [] then 0 else RowCount(l[..|l| - 1], t) + if RowOf(l[|l| - 1], t) then 1 else 0
  }

  lemma OwnRowSnoc(l: seq<Row>, t: Task)
    requires l != []
    ensures HasRowOf(l, t) <==> HasRowOf(l[..|l| - 1], t) || RowOf(l[|l| - 1], t)
  {
    var n := |l| - 1;
    if HasRowOf(l[..n], t) {
      var i :| 0 <= i < n && RowOf(l[..n][i], t);
      assert RowOf(l[i], t);
    }
    if HasRowOf(l, t) && !RowOf(l[n], t) {
      var i :| 0 <= i < |l| && RowOf(l[i], t);
      assert RowOf(l[..n][i], t);
    }
  }

  lemma {:induction false} RowCountIs(l: seq<Row>, t: Task)
    requires RequestsUnique(l)
    ensures RowCount(l, t) == if HasRowOf(l, t) then 1 else 0
  {
    if l != [] {
      var n := |l| - 1;
      RowCountIs(l[..n], t);
      OwnRowSnoc(l, t);
      assert HasRowOf(l[..n], t) ==> !RowOf(l[n], t);
    }
  }

  predicate CostlyCall(s: Sys, t: Task) {
    t in s.enq.accepted && t.amount != 0.0
  }

  /** Each accepted dispatch of a call that moves money has a row of its own. */
  ghost predicate EveryCallCharged(s: Sys) {
    forall t :: CostlyCall(s, t) ==> RowCount(s.world.db.ledger, t) == s.enq.accepted[t]
  }

  /** No two accepted calls that move money share an id. */
  ghost predicate OneCallPerId(s: Sys) {
    && (forall t :: CostlyCall(s, t) ==> s.enq.accepted[t] == 1)
    && (forall t, t' :: CostlyCall(s, t) && CostlyCall(s, t') && KeyOf(t) == KeyOf(t') ==> t == t')
  }

  /** One row cannot charge two different tasks of one request. */
  lemma OneRowOneTask(l: seq<Row>, t: Task, t': Task)
    requires RequestsUnique(l) && HasRowOf(l, t) && HasRowOf(l, t') && KeyOf(t) == KeyOf(t')
    ensures t == t'
  {
    SameKey(t, t');
    var i :| 0 <= i < |l| && RowOf(l[i], t);
    var j :| 0 <= j < |l| && RowOf(l[j], t');
    assert i == j;
  }

  lemma PayerIsOwn(s: Sys, t: Task)
    requires RowsLogged(s.world.db.ledger, s.log, s.passed) && RequestsUnique(s.world.db.ledger)
    requires Charged(s.world.db, t)
    requires forall p :: p in s.passed && KeyOf(p) == KeyOf(t) && p.amount != 0.0 ==> p == t
    ensures HasRowOf(s.world.db.ledger, t)
  {
    var p := Payer(s.world.db.ledger, s.log, s.passed, t);
    assert p == t;
  }

  lemma OwnRowCharged(db: Db, t: Task)
    requires HasRowOf(db.ledger, t)
    ensures Charged(db, t)
  {
    var i :| 0 <= i < |db.ledger| && RowOf(db.ledger[i], t);
    assert db.ledger[i].kind == KindOf(t) && db.ledger[i].requestId == t.requestId;
  }

  /** Some worker that L2 had not answered reached its transaction with a chargeable task of t's request. */
  predicate Reached(cfg: Broker.Config, steps: seq<Step>, t: Task) {
    FirstCommit(cfg, INIT, steps, KindOf(t), t.requestId).Some?
  }

  /** In a drained system that refused no dispatch, every call is charged if and only if no two of them share an
      id and the transaction of each id was reached. */
  lemma CallsChargedIff(cfg: Broker.Config, steps: seq<Step>, s: Sys)
    requires cfg.maxRetry < Broker.INT32_MAX && Pipeline.Run(cfg, INIT, steps, s) && Drained(s)
    requires forall t :: t in s.emitted && t.amount != 0.0 ==> t in s.enq.accepted
    ensures EveryCallCharged(s) <==>
            OneCallPerId(s) && forall t :: CostlyCall(s, t) ==> Reached(cfg, steps, t)
  {
    EndToEnd(cfg, steps, s);
    InitOk(cfg);
    RunKeeps(cfg, INIT, steps, s);
    if EveryCallCharged(s) {
      ChargedMeansDistinct(s);
    }
    if OneCallPerId(s) && forall t :: CostlyCall(s, t) ==> Reached(cfg, steps, t) {
      DistinctMeansCharged(s);
    }
  }

  /** The condition a client can see to: when no free settlement shares its id with a costly call, every call
      is charged if and only if no two of them share an id. */
  lemma OwnIdsIff(cfg: Broker.Config, steps: seq<Step>, s: Sys)
    requires cfg.maxRetry < Broker.INT32_MAX && Pipeline.Run(cfg, INIT, steps, s) && Drained(s)
    requires forall t :: t in s.emitted && t.amount != 0.0 ==> t in s.enq.accepted
    requires TwinFree(s.emitted)
    ensures EveryCallCharged(s) <==> OneCallPerId(s)
  {
    CallsChargedIff(cfg, steps, s);
    NoTwinsAllCharged(cfg, steps, s);
    forall t | CostlyCall(s, t) ensures Reached(cfg, steps, t) {
      assert ChargedFirst(cfg, steps, s, t);
    }
  }

  lemma ChargedMeansDistinct(s: Sys)
    requires EveryCallCharged(s) && RequestsUnique(s.world.db.ledger)
    ensures OneCallPerId(s)
    ensures forall t :: CostlyCall(s, t) ==> Charged(s.world.db, t)
  {
    forall t | CostlyCall(s, t)
      ensures s.enq.accepted[t] == 1 && HasRowOf(s.world.db.ledger, t) && Charged(s.world.db, t)
    {
      RowCountIs(s.world.db.ledger, t);
      OwnRowCharged(s.world.db, t);
    }
    forall t, t' | CostlyCall(s, t) && CostlyCall(s, t') && KeyOf(t) == KeyOf(t')
      ensures t == t'
    {
      OneRowOneTask(s.world.db.ledger, t, t');
    }
  }

  lemma DistinctMeansCharged(s: Sys)
    requires LogOk(s) && RequestsUnique(s.world.db.ledger) && OneCallPerId(s)
    requires forall t :: CostlyCall(s, t) ==> Charged(s.world.db, t)
    requires forall t :: t in s.passed && t.amount != 0.0 ==> t in s.enq.accepted
    ensures EveryCallCharged(s)
  {
    forall t | CostlyCall(s, t) ensures RowCount(s.world.db.ledger, t) == s.enq.accepted[t] {
      PayerIsOwn(s, t);
      RowCountIs(s.world.db.ledger, t);
    }
  }

  /** What a client can see to: with an id of its own for every call, each call is charged once, for itself. */
  lemma DistinctIdsAllCharged(cfg: Broker.Config, steps: seq<Step>, s: Sys)
    requires cfg.maxRetry < Broker.INT32_MAX && Pipeline.Run(cfg, INIT, steps, s) && Drained(s)
    requires forall t, t' :: t in s.emitted && t' in s.emitted && KeyOf(t) == KeyOf(t') ==> t == t'
    requires forall t :: s.enq.accepted[t] <= 1
    ensures EveryCallCharged(s)
  {
    forall f, t | f in s.emitted && t in s.emitted && Free(f) && t.SettleTask? && f.requestId == t.requestId
        ensures t.amount == 0.0 {
      SameRequestSameKey(f, t);
    }
    NoTwinsAllCharged(cfg, steps, s);
    EndToEnd(cfg, steps, s);
    InitOk(cfg);
    RunKeeps(cfg, INIT, steps, s);
    forall t | CostlyCall(s, t) ensures RowCount(s.world.db.ledger, t) == s.enq.accepted[t] {
      AcceptedStands(cfg, s, t);
      PayerIsOwn(s, t);
      RowCountIs(s.world.db.ledger, t);
    }
  }

  // ── a call nothing disturbs ────────────────────────────────────────────────

  /** No client, replay or worker is active and the file is empty. */
  predicate Idle(s: Sys) {
    s.enq == WalProtocol.State([], false, None, map[], map[], s.enq.accepted, s.enq.primary) && s.workers == map[]
  }

  /** And nothing is left in the broker. */
  ghost predicate Quiet(s: Sys) {
    Idle(s) && Drained(s)
  }

  /** A message with one copy, in its queue. */
  predicate Waiting(l: Broker.Lineage) {
    !l.poison && |l.copies| == 1 && l.copies[0].place == Broker.Queued
  }

  lemma {:induction false} RunSnoc(cfg: Broker.Config, s: Sys, steps: seq<Step>, m: Sys, st: Step)
    requires Pipeline.Run(cfg, s, steps, m) && Enabled(cfg, m, st)
    ensures Pipeline.Run(cfg, s, steps + [st], Next(cfg, m, st))
    decreases |steps|
  {
    if steps == [] {
      assert [st][1..] == [];
      assert steps + [st] == [st];
    } else {
      RunSnoc(cfg, Next(cfg, s, steps[0]), steps[1..], m, st);
      assert (steps + [st])[1..] == steps[1..] + [st];
    }
  }

  lemma {:induction false} RunJoin(cfg: Broker.Config, s: Sys, a: seq<Step>, m: Sys, b: seq<Step>, s': Sys)
    requires Pipeline.Run(cfg, s, a, m) && Pipeline.Run(cfg, m, b, s')
    ensures Pipeline.Run(cfg, s, a + b, s')
    decreases |a|
  {
    if a == [] {
      assert a + b == b;
    } else {
      RunJoin(cfg, Next(cfg, s, a[0]), a[1..], m, b, s');
      assert (a + b)[1..] == a[1..] + b;
    }
  }

  /** The dispatch: offered, confirmed, and nothing to replay. */
  lemma Dispatch(cfg: Broker.Config, s: Sys, t: Task) returns (steps: seq<Step>, s': Sys)
    requires Idle(s)
    ensures Pipeline.Run(cfg, s, steps, s')
    ensures s' == s.(enq := s.enq.(accepted := s.enq.accepted + multiset{t}, primary := s.enq.primary + multiset{t}),
                     messages := s.messages + [Message(t, Broker.Publish(false))], emitted := s.emitted + {t})
  {
    var a: Step, b: Step, c: Step :=
        Enqueue(WalProtocol.Start(0, t)), Enqueue(WalProtocol.BrokerOk(0)), Enqueue(WalProtocol.MaybeRecover(0, 0));
    var s1 := Next(cfg, s, a);
    RunSnoc(cfg, s, [], s, a);
    assert s1.enq.clients == map[0 := WalProtocol.Offering(t)];
    var s2 := Next(cfg, s1, b);
    RunSnoc(cfg, s, [] + [a], s1, b);
    assert WalProtocol.Publishes(s1.enq, WalProtocol.BrokerOk(0)) == [t] && [t][1..] == [];
    assert s2.enq.clients == map[0 := WalProtocol.Confirmed];
    s' := Next(cfg, s2, c);
    RunSnoc(cfg, s, [] + [a] + [b], s2, c);
    assert s1.messages == s.messages;
    assert s'.messages == s2.messages;
    assert s'.enq.clients == map[];
    steps := [] + [a] + [b] + [c];
  }

  /** s with worker 0 at phase p on message m. */
  function At(s: Sys, m: nat, p: Phase): Sys {
    s.(workers := map[0 := Worker(m, p)])
  }

  /** The handler of worker 0, undisturbed: its effects are one complete delivery. */
  lemma Handle(cfg: Broker.Config, s: Sys, m: nat, t: Task) returns (steps: seq<Step>, s': Sys)
    requires m < |s.messages| && s.messages[m].task == t && s.workers == map[0 := Worker(m, Looking)]
    requires Deliver(s.world, t, Complete).1
    ensures Pipeline.Run(cfg, s, steps, s')
    ensures s' == At(s, m, Finished).(world := Deliver(s.world, t, Complete).0, log := s'.log, passed := s'.passed,
            bare := s'.bare)
  {
    RunSnoc(cfg, s, [], s, Look(0));
    var s1 := Next(cfg, s, Look(0));
    steps := [] + [Look(0)];
    if Answered(s.world, t) {
      s' := s1;
      assert s'.workers == map[0 := Worker(m, Finished)];
    } else {
      assert s1 == At(s, m, Missed);
      var rest;
      rest, s' := Settle1(cfg, s1, m, t);
      RunJoin(cfg, s, steps, s1, rest, s');
      steps := steps + rest;
    }
  }

  lemma Settle1(cfg: Broker.Config, s: Sys, m: nat, t: Task) returns (steps: seq<Step>, s': Sys)
    requires m < |s.messages| && s.messages[m].task == t && s.workers == map[0 := Worker(m, Missed)]
    requires Deliver(s.world, t, Complete).1 && !Answered(s.world, t)
    ensures Pipeline.Run(cfg, s, steps, s')
    ensures s' == At(s, m, Finished).(world := Deliver(s.world, t, Complete).0, log := s'.log, passed := s'.passed,
            bare := s'.bare)
  {
    var s1 := Next(cfg, s, Step.Commit(0));
    RunSnoc(cfg, s, [], s, Step.Commit(0));
    steps := [] + [Step.Commit(0)];
    assert !Apply(s.world.db, t).1.Failed?;
    assert s1.world == Delivery.Commit(s.world, t).0;
    if !Records(t) {
      s' := s1;
      assert s'.workers == map[0 := Worker(m, Finished)];
    } else {
      assert s1.workers == map[0 := Worker(m, Committed)];
      var rest;
      rest, s' := Finish1(cfg, s1, m, t);
      RunJoin(cfg, s, steps, s1, rest, s');
      steps := steps + rest;
    }
  }

  lemma Finish1(cfg: Broker.Config, s: Sys, m: nat, t: Task) returns (steps: seq<Step>, s': Sys)
    requires m < |s.messages| && s.messages[m].task == t && s.workers == map[0 := Worker(m, Committed)] && Recordable(t)
    ensures Pipeline.Run(cfg, s, steps, s')
    ensures s' == At(s, m, Finished).(world := Delivery.Drop(Delivery.Record(s.world, t), t))
  {
    var s1 := Next(cfg, s, Step.Record(0));
    RunSnoc(cfg, s, [], s, Step.Record(0));
    assert s1.workers == map[0 := Worker(m, Recorded)];
    s' := Next(cfg, s1, Step.Drop(0));
    RunSnoc(cfg, s, [] + [Step.Record(0)], s1, Step.Drop(0));
    assert s'.workers == map[0 := Worker(m, Finished)];
    steps := [] + [Step.Record(0)] + [Step.Drop(0)];
  }

  /** The copy of a waiting message from its fetch to its acknowledgement. */
  lemma Consume1(cfg: Broker.Config, s: Sys, m: nat, t: Task) returns (steps: seq<Step>, s': Sys)
    requires m < |s.messages| && s.messages[m].task == t && Waiting(s.messages[m].lineage) && s.workers == map[]
    requires Deliver(s.world, t, Complete).1
    ensures Pipeline.Run(cfg, s, steps, s')
    ensures s'.enq == s.enq && s'.workers == map[] && s'.emitted == s.emitted
    ensures s'.world == Deliver(s.world, t, Complete).0
    ensures |s'.messages| == |s.messages| && s'.messages[m].lineage.copies == []
    ensures forall n :: 0 <= n < |s.messages| && n != m ==> s'.messages[n] == s.messages[n]
  {
    var fetch, begin: Step := Step.Consume(m, Broker.Fetch(0)), Step.Begin(0, m);
    var s1 := Next(cfg, s, fetch);
    RunSnoc(cfg, s, [], s, fetch);
    assert s1.messages[m].lineage.copies[0].place == Broker.Fetched;
    var s2 := Next(cfg, s1, begin);
    RunSnoc(cfg, s, [] + [fetch], s1, begin);
    var mid, s3 := Handle(cfg, s2, m, t);
    RunJoin(cfg, s, [] + [fetch] + [begin], s2, mid, s3);
    var back, ack: Step := Step.Return(0, 0), Step.Consume(m, Broker.Ack(0));
    assert s3.messages == s2.messages;
    var s4 := Next(cfg, s3, back);
    RunSnoc(cfg, s, [] + [fetch] + [begin] + mid, s3, back);
    assert s4.messages[m].lineage.copies[0].place == Broker.Handled(true) && s4.workers == map[];
    s' := Next(cfg, s4, ack);
    RunSnoc(cfg, s, [] + [fetch] + [begin] + mid + [back], s4, ack);
    steps := [] + [fetch] + [begin] + mid + [back] + [ack];
  }

  /** A whole call in a quiet system: accepted, delivered once, acknowledged, and the system is quiet again. */
  lemma QuietCall(cfg: Broker.Config, s: Sys, t: Task) returns (steps: seq<Step>, s': Sys)
    requires Quiet(s) && Deliver(s.world, t, Complete).1
    ensures Pipeline.Run(cfg, s, steps, s') && Quiet(s')
    ensures s'.world == Deliver(s.world, t, Complete).0
    ensures s'.enq.accepted == s.enq.accepted + multiset{t} && s'.emitted == s.emitted + {t}
  {
    var a, s1 := Dispatch(cfg, s, t);
    var b;
    b, s' := Consume1(cfg, s1, |s.messages|, t);
    RunJoin(cfg, s, a, s1, b, s');
    steps := a + b;
  }

  // ── runs in which an accepted call is not charged ──────────────────────────

  /** Two customers get their balance rows. */
  lemma OpenAccounts(cfg: Broker.Config, u: int, v: int) returns (steps: seq<Step>, s: Sys)
    ensures Pipeline.Run(cfg, INIT, steps, s) && Quiet(s) && s.enq.accepted == multiset{}
    ensures s.world.records == map[] && NonNegativeBalances(s.world.db) && s.world.db.ledger == []
    ensures u in s.world.db.accounts && v in s.world.db.accounts
  {
    var e1, e2: Step := Other(EnsureOp(u)), Other(EnsureOp(v));
    RunSnoc(cfg, INIT, [], INIT, e1);
    var s1 := Next(cfg, INIT, e1);
    RunSnoc(cfg, INIT, [] + [e1], s1, e2);
    s := Next(cfg, s1, e2);
    steps := [] + [e1] + [e2];
  }

  /** A first call under an id, then a second one, by customers that have balance rows. */
  lemma TwoCalls(cfg: Broker.Config, a: Task, b: Task) returns (steps: seq<Step>, s: Sys, mid: World)
    requires SharedId(a, b)
    ensures Pipeline.Run(cfg, INIT, steps, s) && Drained(s)
    ensures s.enq.accepted == multiset{a, b}
    ensures mid.records == map[] && NonNegativeBalances(mid.db) && mid.db.ledger == [] && a.user in mid.db.accounts
    ensures s.world == Deliver(mid, a, Complete).0
  {
    var o, s0 := OpenAccounts(cfg, a.user, b.user);
    mid := s0.world;
    SecondDelivered(mid, a, b);
    var p, s1 := QuietCall(cfg, s0, a);
    var q;
    q, s := QuietCall(cfg, s1, b);
    RunJoin(cfg, INIT, o, s0, p, s1);
    RunJoin(cfg, INIT, o + p, s1, q, s);
    steps := o + p + q;
  }

  /** Two complete settlements under one id, the second of which costs something. */
  predicate SharedId(a: Task, b: Task) {
    && a.SettleTask? && b.SettleTask? && a.requestId == b.requestId && |a.requestId| <= MAX_REQUEST_ID
    && WellFormed(a) && WellFormed(b) && a.amount >= 0.0 && b.amount > 0.0
  }

  /** The second of two calls of one id is acknowledged, by L2. */
  lemma SecondDelivered(w: World, a: Task, b: Task)
    requires SharedId(a, b) && w.records == map[] && a.user in w.db.accounts
    ensures
      var w1 := Deliver(w, a, Complete).0;
      Deliver(w, a, Complete).1 && w1.db == Apply(w.db, a).0 && Deliver(w1, b, Complete) == (w1, true)
  {
    assert |KeyOf(a).key| == 7 + |a.requestId|;
  }

  lemma FirstRow(db: Db, a: Task)
    requires a.SettleTask? && WellFormed(a) && a.amount > 0.0 && a.user in db.accounts
    requires |a.requestId| <= MAX_REQUEST_ID
    requires db.ledger == []
    ensures var l := Apply(db, a).0.ledger; |l| == 1 && RowOf(l[0], a)
  {
  }

  /** Two calls that each cost something, under one id, by any customers: both are accepted and acknowledged,
      and only the first is charged. */
  lemma SharedIdChargedOnce(cfg: Broker.Config, a: Task, b: Task) returns (steps: seq<Step>, s: Sys)
    requires SharedId(a, b) && a.amount > 0.0 && a != b
    ensures Pipeline.Run(cfg, INIT, steps, s) && Drained(s) && s.enq.accepted == multiset{a, b}
    ensures |s.world.db.ledger| == 1 && RowOf(s.world.db.ledger[0], a)
    ensures !EveryCallCharged(s)
  {
    var mid;
    steps, s, mid := TwoCalls(cfg, a, b);
    SecondDelivered(mid, a, b);
    FirstRow(mid.db, a);
    var l := s.world.db.ledger;
    assert l[..0] == [] && RowCount([], b) == 0;
    assert RowCount(l, b) == 0;
    assert b in s.enq.accepted;
  }

  /** A free call, then a costly one under its id: both are accepted and acknowledged, and nobody is charged. */
  lemma FreeCallHidesCostly(cfg: Broker.Config, f: Task, c: Task) returns (steps: seq<Step>, s: Sys)
    requires SharedId(f, c) && Free(f)
    ensures Pipeline.Run(cfg, INIT, steps, s) && Drained(s) && s.enq.accepted == multiset{f, c}
    ensures s.world.db.ledger == [] && !EveryCallCharged(s)
  {
    var mid;
    steps, s, mid := TwoCalls(cfg, f, c);
    SecondDelivered(mid, f, c);
    assert RowCount([], c) == 0;
    assert c in s.enq.accepted;
  }

  /** A worker misses the L2 lookup of a waiting message and dies before its transaction; the broker queues the
      copy again. */
  lemma MissAndDie(cfg: Broker.Config, s: Sys, m: nat, t: Task)
    returns (before: seq<Step>, at: Sys, after: seq<Step>, s': Sys)
    requires m < |s.messages| && s.messages[m].task == t && Waiting(s.messages[m].lineage) && s.workers == map[]
    requires !Answered(s.world, t)
    ensures Pipeline.Run(cfg, s, before, at) && at.world == s.world
    ensures Enabled(cfg, at, Look(0)) && TaskOf(at, 0) == t && Pipeline.Run(cfg, at, [Look(0)] + after, s')
    ensures |s'.messages| == |s.messages| && s'.messages[m].task == t && Waiting(s'.messages[m].lineage)
    ensures s' == s.(messages := s.messages[m := s'.messages[m]])
  {
    var fetch, begin: Step := Step.Consume(m, Broker.Fetch(0)), Step.Begin(0, m);
    var s1 := Next(cfg, s, fetch);
    RunSnoc(cfg, s, [], s, fetch);
    assert s1.messages[m].lineage.copies[0].place == Broker.Fetched;
    at := Next(cfg, s1, begin);
    RunSnoc(cfg, s, [] + [fetch], s1, begin);
    before := [] + [fetch] + [begin];
    var die, back: Step := Step.Die(0), Step.Consume(m, Broker.Redeliver(0));
    RunSnoc(cfg, at, [], at, Look(0));
    var s2 := Next(cfg, at, Look(0));
    RunSnoc(cfg, at, [] + [Look(0)], s2, die);
    var s3 := Next(cfg, s2, die);
    assert s3.workers == map[] && s3.messages == s1.messages;
    RunSnoc(cfg, at, [] + [Look(0)] + [die], s3, back);
    s' := Next(cfg, s3, back);
    after := [die, back];
    assert [] + [Look(0)] + [die] + [back] == [Look(0)] + after;
  }

  /** The last two messages are waiting, of a and then of b, and every other one is gone. */
  ghost predicate Pending(s: Sys, m: nat, a: Task, b: Task) {
    && Idle(s) && |s.messages| == m + 2 && s.messages[m].task == a && s.messages[m + 1].task == b
    && forall n :: 0 <= n < |s.messages| ==>
         if n < m then s.messages[n].lineage.copies == [] else Waiting(s.messages[n].lineage)
  }

  /** Two calls dispatched, both still waiting, by customers that have balance rows. */
  lemma BothWait(cfg: Broker.Config, a: Task, b: Task) returns (steps: seq<Step>, s: Sys, m: nat)
    ensures Pipeline.Run(cfg, INIT, steps, s) && Pending(s, m, a, b) && s.enq.accepted == multiset{a, b}
    ensures s.world.records == map[] && s.world.db.ledger == []
    ensures a.user in s.world.db.accounts && b.user in s.world.db.accounts
  {
    var o, s0 := OpenAccounts(cfg, a.user, b.user);
    var d, s1 := Dispatch(cfg, s0, a);
    var e;
    e, s := Dispatch(cfg, s1, b);
    m := |s0.messages|;
    RunJoin(cfg, INIT, o, s0, d, s1);
    RunJoin(cfg, INIT, o + d, s1, e, s);
    steps := o + d + e;
  }

  /** The two consumed one after the other, the later one first. */
  lemma ConsumeBoth(cfg: Broker.Config, s: Sys, m: nat, a: Task, b: Task) returns (steps: seq<Step>, s': Sys)
    requires Pending(s, m, a, b)
    requires Deliver(s.world, b, Complete).1 && Deliver(Deliver(s.world, b, Complete).0, a, Complete).1
    ensures Pipeline.Run(cfg, s, steps, s') && Drained(s') && s'.enq == s.enq
    ensures s'.world == Deliver(Deliver(s.world, b, Complete).0, a, Complete).0
  {
    var g, s1 := Consume1(cfg, s, m + 1, b);
    var h;
    h, s' := Consume1(cfg, s1, m, a);
    RunJoin(cfg, s, g, s1, h, s');
    steps := g + h;
  }

  lemma MissThenConsume(cfg: Broker.Config, s: Sys, m: nat, c: Task, f: Task)
    returns (before: seq<Step>, at: Sys, after: seq<Step>, s': Sys)
    requires Pending(s, m, c, f) && !Answered(s.world, c)
    requires Deliver(s.world, f, Complete).1 && Deliver(Deliver(s.world, f, Complete).0, c, Complete).1
    ensures Pipeline.Run(cfg, s, before, at) && at.world == s.world
    ensures Enabled(cfg, at, Look(0)) && TaskOf(at, 0) == c && Pipeline.Run(cfg, at, [Look(0)] + after, s')
    ensures Drained(s') && s'.enq == s.enq
    ensures s'.world == Deliver(Deliver(s.world, f, Complete).0, c, Complete).0
  {
    var y, s1;
    before, at, y, s1 := MissAndDie(cfg, s, m, c);
    var z;
    z, s' := ConsumeBoth(cfg, s1, m, c, f);
    RunJoin(cfg, at, [Look(0)] + y, s1, z, s');
    after := y + z;
    assert [Look(0)] + y + z == [Look(0)] + after;
  }

  /** A missed lookup is not enough: a chargeable task finds no live record, its worker dies, a free settlement
      of its id goes through, and the redelivery is answered by L2.  Everything is acknowledged and there is
      no row. */
  lemma MissedLookIsNotEnough(cfg: Broker.Config, f: Task, c: Task)
    returns (before: seq<Step>, at: Sys, after: seq<Step>, s: Sys)
    requires SharedId(f, c) && Free(f)
    ensures Pipeline.Run(cfg, INIT, before, at) && Enabled(cfg, at, Look(0)) && TaskOf(at, 0) == c
    ensures !Live(at.world, KeyOf(c)) && Chargeable(at.world.db, c)
    ensures Pipeline.Run(cfg, INIT, before + ([Look(0)] + after), s)
    ensures Drained(s) && s.enq.accepted == multiset{c, f} && s.world.db.ledger == []
  {
    var o, s1, m := BothWait(cfg, c, f);
    SecondDelivered(s1.world, f, c);
    var x;
    x, at, after, s := MissThenConsume(cfg, s1, m, c, f);
    RunJoin(cfg, INIT, o, s1, x, at);
    before := o + x;
    RunJoin(cfg, INIT, before, at, [Look(0)] + after, s);
  }
}
