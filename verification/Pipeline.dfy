/**
 The whole money pipeline: concurrent dispatches into the resilient enqueuer, the broker with its retry
 buckets, and workers settling and refunding against the tables, with every other writer of the tables
 running alongside.  A settle message is written as the charge its payload stands for (Engine.Charge).
 Request ids are whatever the clients send: any two calls may share one.
 */
module Pipeline {
  import opened Sequences
  import opened Ledger
  import opened Delivery
  import WalProtocol
  import Broker

  datatype Message = Message(task: Task, lineage: Broker.Lineage)

  /** A handler call on a fetched copy of message m, stopped between two of its effects.  It outlives a lost
      channel: what it does afterwards still reaches the tables. */
  datatype Phase = Looking | Missed | Committed | Recorded | Finished | Failing

  datatype Worker = Worker(m: nat, phase: Phase)

  /** emitted: every task ever offered to dispatch.  log: the transactions in commit order, where a task
      appears when, and only when, it wrote its row.  passed: tasks that found no live L2 record and whose
      transaction went through.  bare: tasks that cost something and were acknowledged by L2 while their
      request had no row. */
  datatype Sys = Sys(
    enq: WalProtocol.State<Task>,
    messages: seq<Message>,
    world: World,
    workers: map<nat, Worker>,
    emitted: set<Task>,
    log: seq<Op>,
    passed: set<Task>,
    bare: set<Task>)

  const INIT := Sys(WalProtocol.Init([]), [], World(EMPTY_DB, map[], 0, {}), map[], {}, [], {}, {})

  datatype Step =
    | Enqueue(e: WalProtocol.Step<Task>)
    | Consume(m: nat, b: Broker.Step)
    | Begin(k: nat, m: nat)
    | Look(k: nat)
    | Commit(k: nat)
    | Record(k: nat)
    | Drop(k: nat)
    | Error(k: nat)
    | Return(k: nat, i: nat)
    | Die(k: nat)
    | Environment(event: Event)
    | Other(op: Op)

  function OpOf(t: Task): Op {
    if t.SettleTask? then SettleOp(t.user, t.requestId, t.amount) else RefundOp(t.user, t.requestId, t.amount)
  }

  /** Transactions that only workers make. */
  predicate TaskOp(op: Op) {
    op.SettleOp? || op.RefundOp?
  }

  predicate Busy(s: Sys, k: nat, p: Phase) {
    k in s.workers && s.workers[k].phase == p && s.workers[k].m < |s.messages|
  }

  predicate Fetched(l: Broker.Lineage) {
    exists i :: 0 <= i < |l.copies| && l.copies[i].place == Broker.Fetched
  }

  predicate Enabled(cfg: Broker.Config, s: Sys, st: Step) {
    match st
    case Enqueue(e) => WalProtocol.Enabled(s.enq, e)
    case Consume(m, b) => m < |s.messages| && Broker.Enabled(cfg, s.messages[m].lineage, b) && !b.Handle?
    case Begin(k, m) => k !in s.workers && m < |s.messages| && Fetched(s.messages[m].lineage)
    case Look(k) => Busy(s, k, Looking)
    case Commit(k) => Busy(s, k, Missed)
    case Record(k) => Busy(s, k, Committed)
    case Drop(k) => Busy(s, k, Recorded)
    case Error(k) => k in s.workers && s.workers[k].phase != Finished
    case Return(k, i) =>
      && (Busy(s, k, Finished) || Busy(s, k, Failing))
      && Broker.Enabled(cfg, s.messages[s.workers[k].m].lineage, Broker.Handle(i, true))
    case Die(k) => k in s.workers
    case Environment(e) => !e.Delivered?
    case Other(op) => !TaskOp(op)
  }

  function Messages(ts: seq<Task>): seq<Message> {
    if ts == [] then [] else [Message(ts[0], Broker.Publish(false))] + Messages(ts[1..])
  }

  function Advance(cfg: Broker.Config, s: Sys, m: nat, b: Broker.Step): Sys
    requires m < |s.messages| && Broker.Enabled(cfg, s.messages[m].lineage, b)
  {
    s.(messages := s.messages[m := s.messages[m].(lineage := Broker.Next(cfg, s.messages[m].lineage, b))])
  }

  function SetPhase(s: Sys, k: nat, p: Phase): Sys
    requires k in s.workers
  {
    s.(workers := s.workers[k := s.workers[k].(phase := p)])
  }

  function TaskOf(s: Sys, k: nat): Task
    requires k in s.workers && s.workers[k].m < |s.messages|
  {
    s.messages[s.workers[k].m].task
  }

  predicate Answered(w: World, t: Task) {
    WellFormed(t) && Live(w, KeyOf(t))
  }

  /** The transaction of a delivery that L2 did not answer; a zero refund ends there. */
  function CommitStep(s: Sys, k: nat): Sys
    requires k in s.workers && s.workers[k].m < |s.messages|
  {
    var t := TaskOf(s, k);
    var (w, out) := Delivery.Commit(s.world, t);
    if out.Failed? then SetPhase(s, k, Failing).(world := w)
    else
      SetPhase(s, k, if Records(t) then Committed else Finished)
        .(world := w, passed := s.passed + {t}, log := if out == Ledger.Done(true) then s.log + [OpOf(t)] else s.log)
  }

  /** A worker that dies leaves its effects behind and its message unacknowledged. */
  function Next(cfg: Broker.Config, s: Sys, st: Step): Sys
    requires Enabled(cfg, s, st)
  {
    match st
    case Enqueue(e) =>
      s.(enq := WalProtocol.Next(s.enq, e), messages := s.messages + Messages(WalProtocol.Publishes(s.enq, e)),
         emitted := if e.Start? then s.emitted + {e.task} else s.emitted)
    case Consume(m, b) => Advance(cfg, s, m, b)
    case Begin(k, m) => s.(workers := s.workers[k := Worker(m, Looking)])
    case Look(k) =>
      var t := TaskOf(s, k);
      if !Answered(s.world, t) then SetPhase(s, k, Missed)
      else SetPhase(s, k, Finished).(bare := if t.amount != 0.0 && !Charged(s.world.db, t) then s.bare + {t}
          else s.bare)
    case Commit(k) => CommitStep(s, k)
    case Record(k) =>
      var t := TaskOf(s, k);
      if Recordable(t) then SetPhase(s, k, Recorded).(world := Delivery.Record(s.world, t)) else SetPhase(s, k, Failing)
    case Drop(k) => SetPhase(s, k, Finished).(world := Delivery.Drop(s.world, TaskOf(s, k)))
    case Error(k) => SetPhase(s, k, Failing)
    case Return(k, i) =>
      Advance(cfg, s, s.workers[k].m, Broker.Handle(i, s.workers[k].phase == Finished)).(workers := s.workers - {k})
    case Die(k) => s.(workers := s.workers - {k})
    case Environment(e) => s.(world := Delivery.Step(s.world, e))
    case Other(op) => s.(world := s.world.(db := Exec(s.world.db, op).0), log := s.log + [op])
  }

  // ── what every step keeps ──────────────────────────────────────────────────

  /** Nothing is left to do for t: it moves no money, its request has its row, or L2 hid it. */
  predicate Done(db: Db, bare: set<Task>, t: Task) {
    t.amount == 0.0 || Charged(db, t) || t in bare
  }

  ghost predicate All(ts: seq<Task>, emitted: set<Task>) {
    forall t :: t in ts ==> t in emitted
  }

  ghost predicate ReplayHeld(r: WalProtocol.Replay<Task>, emitted: set<Task>) {
    r.Running? ==> All(r.entries, emitted) && All(r.failed, emitted)
  }

  /** Every task anywhere in the enqueuer was emitted. */
  ghost predicate Held(q: WalProtocol.State<Task>, emitted: set<Task>) {
    && All(q.wal, emitted)
    && (forall c :: c in q.clients && !q.clients[c].Confirmed? ==> q.clients[c].task in emitted)
    && (forall r :: r in q.replays ==> ReplayHeld(q.replays[r], emitted))
  }

  ghost predicate MessageOk(cfg: Broker.Config, db: Db, emitted: set<Task>, bare: set<Task>, msg: Message) {
    && msg.task in emitted
    && Broker.Inv(cfg, msg.lineage) && !msg.lineage.poison
    && (msg.lineage.succeeded ==> Done(db, bare, msg.task))
  }

  /** Whatever reached the broker has a message there. */
  ghost predicate Carried(primary: multiset<Task>, messages: seq<Message>) {
    forall t :: t in primary ==> exists m :: 0 <= m < |messages| && messages[m].task == t
  }

  ghost predicate MessagesOk(cfg: Broker.Config, s: Sys) {
    && (forall m :: 0 <= m < |s.messages| ==> MessageOk(cfg, s.world.db, s.emitted, s.bare, s.messages[m]))
    && Carried(s.enq.primary, s.messages)
  }

  /** A task past its transaction has its row, unless it moves no money. */
  ghost predicate PassedOk(s: Sys) {
    && s.passed <= s.emitted
    && forall t :: t in s.passed ==> t.amount == 0.0 || Charged(s.world.db, t)
  }

  /** L2 records are left by tasks past their transaction. */
  ghost predicate RecordsOk(s: Sys) {
    forall k :: k in s.world.records ==> exists t :: t in s.passed && KeyOf(t) == k && Records(t)
  }

  /** A free settlement of t's id has been through. */
  ghost predicate FreeTwinPassed(passed: set<Task>, t: Task) {
    exists f :: f in passed && Free(f) && f.requestId == t.requestId
  }

  /** L2 hides only settlements, and only behind a free one of the same id. */
  ghost predicate BareOk(s: Sys) {
    forall t :: t in s.bare ==> t in s.emitted && t.SettleTask? && t.amount != 0.0 && FreeTwinPassed(s.passed, t)
  }

  /** A handler past its commit, or answered by L2, has nothing left to do in the tables. */
  ghost predicate WorkerOk(s: Sys, w: Worker) {
    && w.m < |s.messages|
    && var t := s.messages[w.m].task;
       && (w.phase == Committed || w.phase == Recorded ==> t in s.passed && Records(t))
       && (w.phase == Finished ==> Done(s.world.db, s.bare, t))
  }

  ghost predicate WorkersOk(s: Sys) {
    forall k :: k in s.workers ==> WorkerOk(s, s.workers[k])
  }

  predicate RowOf(row: Row, t: Task) {
    && row.kind == KindOf(t) && row.requestId == t.requestId && row.user == t.user
    && t.amount == if t.SettleTask? then row.overdraft - row.amount else row.amount
  }

  ghost predicate OpLogged(ledger: seq<Row>, op: Op, passed: set<Task>) {
    exists t :: t in passed && op == OpOf(t) && HasRow(ledger, KindOf(t), t.requestId)
  }

  ghost predicate OpsLogged(ledger: seq<Row>, log: seq<Op>, passed: set<Task>) {
    forall i :: 0 <= i < |log| && TaskOp(log[i]) ==> OpLogged(ledger, log[i], passed)
  }

  /** Two tasks' transactions of one kind and request. */
  predicate SameRequest(a: Op, b: Op) {
    TaskOp(a) && TaskOp(b) && a.SettleOp? == b.SettleOp? && a.requestId == b.requestId
  }

  ghost predicate LogDistinct(log: seq<Op>) {
    forall i, j :: 0 <= i < j < |log| ==> !SameRequest(log[i], log[j])
  }

  ghost predicate RowLogged(row: Row, log: seq<Op>, passed: set<Task>) {
    exists t :: t in passed && t.amount != 0.0 && OpOf(t) in log && RowOf(row, t)
  }

  predicate TaskRow(row: Row) {
    row.kind == Settle || row.kind == Refund
  }

  ghost predicate RowsLogged(ledger: seq<Row>, log: seq<Op>, passed: set<Task>) {
    forall i :: 0 <= i < |ledger| && TaskRow(ledger[i]) ==> RowLogged(ledger[i], log, passed)
  }

  /** Rows and committed tasks are the same thing, one per kind and request, each for what its task asked. */
  ghost predicate Logged(ledger: seq<Row>, log: seq<Op>, passed: set<Task>) {
    OpsLogged(ledger, log, passed) && LogDistinct(log) && RowsLogged(ledger, log, passed)
  }

  ghost predicate LogOk(s: Sys) {
    s.world.db == Ledger.Run(EMPTY_DB, s.log) && Logged(s.world.db.ledger, s.log, s.passed)
  }

  ghost predicate HistoryOk(s: Sys) {
    PassedOk(s) && RecordsOk(s) && BareOk(s)
  }

  ghost predicate Inv(cfg: Broker.Config, s: Sys) {
    WalProtocol.Inv(s.enq) && Held(s.enq, s.emitted) && MessagesOk(cfg, s) && HistoryOk(s) && WorkersOk(s) && LogOk(s)
  }

  lemma DoneStays(db: Db, db': Db, bare: set<Task>, bare': set<Task>, t: Task)
    requires Done(db, bare, t) && db.ledger <= db'.ledger && bare <= bare'
    ensures Done(db', bare', t)
  {
    if Charged(db, t) {
      ChargedStays(db, db', t);
    }
  }

  // ── the enqueuer's steps ───────────────────────────────────────────────────

  lemma HeldAfterClient(q: WalProtocol.State<Task>, e: WalProtocol.Step<Task>, emitted: set<Task>)
    requires Held(q, emitted) && WalProtocol.Enabled(q, e) && (e.Start? ==> e.task in emitted)
    requires e.Start? || e.BrokerOk? || e.BrokerFail? || e.Append? || e.AppendFail?
    ensures Held(WalProtocol.Next(q, e), emitted) && All(WalProtocol.Publishes(q, e), emitted)
  {
  }

  lemma HeldAfterReplay(q: WalProtocol.State<Task>, e: WalProtocol.Step<Task>, emitted: set<Task>)
    requires Held(q, emitted) && WalProtocol.Enabled(q, e)
    requires e.MaybeRecover? || e.Lock? || e.Send? || e.Finish? || e.Crash?
    ensures Held(WalProtocol.Next(q, e), emitted) && All(WalProtocol.Publishes(q, e), emitted)
  {
    var q' := WalProtocol.Next(q, e);
    forall r | r in q'.replays ensures ReplayHeld(q'.replays[r], emitted) {
      if r in q.replays {
        assert ReplayHeld(q.replays[r], emitted);
      }
    }
    if e.Finish? {
      assert ReplayHeld(q.replays[e.r], emitted);
    }
  }

  lemma HeldAfter(q: WalProtocol.State<Task>, e: WalProtocol.Step<Task>, emitted: set<Task>)
    requires Held(q, emitted) && WalProtocol.Enabled(q, e) && (e.Start? ==> e.task in emitted)
    ensures Held(WalProtocol.Next(q, e), emitted) && All(WalProtocol.Publishes(q, e), emitted)
  {
    if e.Start? || e.BrokerOk? || e.BrokerFail? || e.Append? || e.AppendFail? {
      HeldAfterClient(q, e, emitted);
    } else {
      HeldAfterReplay(q, e, emitted);
    }
  }

  lemma HeldMore(q: WalProtocol.State<Task>, emitted: set<Task>, emitted': set<Task>)
    requires Held(q, emitted) && emitted <= emitted'
    ensures Held(q, emitted')
  {
    forall r | r in q.replays ensures ReplayHeld(q.replays[r], emitted') {
      assert ReplayHeld(q.replays[r], emitted);
    }
  }

  lemma CarriedMore(primary: multiset<Task>, messages: seq<Message>, ts: seq<Task>)
    requires Carried(primary, messages) && |ts| <= 1
    ensures Carried(primary + multiset(ts), messages + Messages(ts))
  {
    var all := messages + Messages(ts);
    forall t | t in primary + multiset(ts) ensures exists m :: 0 <= m < |all| && all[m].task == t {
      if t in primary {
        var m :| 0 <= m < |messages| && messages[m].task == t;
        assert all[m] == messages[m];
      } else {
        assert t in ts && all[|messages|].task == t;
      }
    }
  }

  lemma MessagesGrow(cfg: Broker.Config, s: Sys, ts: seq<Task>, s': Sys)
    requires MessagesOk(cfg, s) && |ts| <= 1 && All(ts, s.emitted)
    requires s'.messages == s.messages + Messages(ts) && s'.world == s.world && s'.bare == s.bare
    requires s.emitted <= s'.emitted && s'.enq.primary == s.enq.primary + multiset(ts)
    ensures MessagesOk(cfg, s')
  {
    assert ts != [] ==> ts[1..] == [];
    CarriedMore(s.enq.primary, s.messages, ts);
    forall m | 0 <= m < |s'.messages| ensures MessageOk(cfg, s'.world.db, s'.emitted, s'.bare, s'.messages[m]) {
      if m < |s.messages| {
        assert MessageOk(cfg, s.world.db, s.emitted, s.bare, s.messages[m]);
      } else {
        Broker.PublishOk(cfg, false);
        assert s'.messages[m] == Message(ts[0], Broker.Publish(false));
      }
    }
  }

  lemma PublishesOne(q: WalProtocol.State<Task>, e: WalProtocol.Step<Task>)
    requires WalProtocol.Enabled(q, e)
    ensures |WalProtocol.Publishes(q, e)| <= 1
    ensures WalProtocol.Next(q, e).primary == q.primary + multiset(WalProtocol.Publishes(q, e))
  {
  }

  /** The enqueuer's own part of a step. */
  lemma EnqueueHeld(q: WalProtocol.State<Task>, e: WalProtocol.Step<Task>, emitted: set<Task>, emitted': set<Task>)
    requires Held(q, emitted) && WalProtocol.Enabled(q, e)
    requires emitted' == if e.Start? then emitted + {e.task} else emitted
    ensures Held(WalProtocol.Next(q, e), emitted') && All(WalProtocol.Publishes(q, e), emitted)
  {
    HeldMore(q, emitted, emitted');
    HeldAfter(q, e, emitted');
    PublishedWasEmitted(q, emitted, e);
  }

  lemma EnqueueKeeps(cfg: Broker.Config, s: Sys, e: WalProtocol.Step<Task>)
    requires Inv(cfg, s) && Enabled(cfg, s, Enqueue(e))
    ensures Inv(cfg, Next(cfg, s, Enqueue(e)))
  {
    var s' := Next(cfg, s, Enqueue(e));
    WalProtocol.NextKeeps(s.enq, e);
    EnqueueHeld(s.enq, e, s.emitted, s'.emitted);
    PublishesOne(s.enq, e);
    MessagesGrow(cfg, s, WalProtocol.Publishes(s.enq, e), s');
    HistoryStays(s, s');
    WorkersStay(s, s');
  }

  lemma PublishedWasEmitted(q: WalProtocol.State<Task>, emitted: set<Task>, e: WalProtocol.Step<Task>)
    requires Held(q, emitted) && WalProtocol.Enabled(q, e)
    ensures All(WalProtocol.Publishes(q, e), emitted)
  {
    if !e.Start? {
      HeldAfter(q, e, emitted);
    }
  }

  // ── what a step that leaves most things alone keeps ────────────────────────

  /** s' has everything s had. */
  predicate Grown(s: Sys, s': Sys) {
    s.world.db.ledger <= s'.world.db.ledger && s.emitted <= s'.emitted && s.passed <= s'.passed && s.bare <= s'.bare
  }

  predicate SameTasks(s: Sys, s': Sys) {
    |s.messages| <= |s'.messages| && forall m :: 0 <= m < |s.messages| ==> s'.messages[m].task == s.messages[m].task
  }

  lemma BareStays(s: Sys, s': Sys)
    requires BareOk(s) && Grown(s, s') && s'.bare == s.bare
    ensures BareOk(s')
  {
    forall t | t in s'.bare ensures FreeTwinPassed(s'.passed, t) {
      var f :| f in s.passed && Free(f) && f.requestId == t.requestId;
      assert f in s'.passed;
    }
  }

  lemma PassedStays(s: Sys, s': Sys)
    requires PassedOk(s) && Grown(s, s') && s'.passed == s.passed
    ensures PassedOk(s')
  {
    forall t | t in s'.passed ensures t.amount == 0.0 || Charged(s'.world.db, t) {
      if Charged(s.world.db, t) {
        ChargedStays(s.world.db, s'.world.db, t);
      }
    }
  }

  lemma RecordsStay(s: Sys, s': Sys)
    requires RecordsOk(s) && s.passed <= s'.passed && s'.world.records.Keys <= s.world.records.Keys
    ensures RecordsOk(s')
  {
    forall k | k in s'.world.records ensures exists t :: t in s'.passed && KeyOf(t) == k && Records(t) {
      var t :| t in s.passed && KeyOf(t) == k && Records(t);
      assert t in s'.passed;
    }
  }

  lemma HistoryStays(s: Sys, s': Sys)
    requires HistoryOk(s) && Grown(s, s') && s'.passed == s.passed && s'.bare == s.bare
    requires s'.world.records.Keys <= s.world.records.Keys
    ensures HistoryOk(s')
  {
    BareStays(s, s');
    PassedStays(s, s');
    RecordsStay(s, s');
  }

  lemma WorkerStays(s: Sys, s': Sys, w: Worker)
    requires WorkerOk(s, w) && Grown(s, s') && SameTasks(s, s')
    ensures WorkerOk(s', w)
  {
    if w.phase == Finished {
      DoneStays(s.world.db, s'.world.db, s.bare, s'.bare, s.messages[w.m].task);
    }
  }

  lemma WorkersStay(s: Sys, s': Sys)
    requires WorkersOk(s) && Grown(s, s') && SameTasks(s, s')
    requires forall k :: k in s'.workers ==> k in s.workers && s'.workers[k] == s.workers[k]
    ensures WorkersOk(s')
  {
    forall k | k in s'.workers ensures WorkerOk(s', s'.workers[k]) {
      WorkerStays(s, s', s.workers[k]);
    }
  }

  /** One worker moves, the others stay. */
  lemma WorkerMoves(s: Sys, s': Sys, k: nat, w: Worker)
    requires WorkersOk(s) && Grown(s, s') && SameTasks(s, s')
    requires s'.workers == s.workers[k := w] && WorkerOk(s', w)
    ensures WorkersOk(s')
  {
    forall j | j in s'.workers ensures WorkerOk(s', s'.workers[j]) {
      if j != k {
        WorkerStays(s, s', s.workers[j]);
      }
    }
  }

  lemma MessageStays(cfg: Broker.Config, s: Sys, s': Sys, msg: Message)
    requires MessageOk(cfg, s.world.db, s.emitted, s.bare, msg) && Grown(s, s')
    ensures MessageOk(cfg, s'.world.db, s'.emitted, s'.bare, msg)
  {
    if msg.lineage.succeeded {
      DoneStays(s.world.db, s'.world.db, s.bare, s'.bare, msg.task);
    }
  }

  lemma MessagesStay(cfg: Broker.Config, s: Sys, s': Sys)
    requires MessagesOk(cfg, s) && s'.messages == s.messages && s'.enq == s.enq && Grown(s, s')
    ensures MessagesOk(cfg, s')
  {
    forall m | 0 <= m < |s.messages| ensures MessageOk(cfg, s'.world.db, s'.emitted, s'.bare, s.messages[m]) {
      MessageStays(cfg, s, s', s.messages[m]);
    }
  }

  // ── the worker's steps ─────────────────────────────────────────────────────

  lemma WorkersTask(cfg: Broker.Config, s: Sys, k: nat)
    requires MessagesOk(cfg, s) && WorkersOk(s) && k in s.workers
    ensures s.workers[k].m < |s.messages| && TaskOf(s, k) in s.emitted
  {
    assert WorkerOk(s, s.workers[k]);
    assert MessageOk(cfg, s.world.db, s.emitted, s.bare, s.messages[s.workers[k].m]);
  }

  /** L2 answers a task without a row only behind a free settlement of its id. */
  lemma AnsweredBare(s: Sys, t: Task)
    requires HistoryOk(s) && t in s.emitted && Live(s.world, KeyOf(t)) && !Charged(s.world.db, t)
    ensures t.SettleTask? && FreeTwinPassed(s.passed, t)
  {
    var f :| f in s.passed && KeyOf(f) == KeyOf(t) && Records(f);
    SameKey(f, t);
    assert Free(f);
  }

  lemma LookBare(s: Sys, s': Sys, t: Task)
    requires HistoryOk(s) && t in s.emitted && s' == s.(workers := s'.workers, bare := s'.bare)
    requires s'.bare == s.bare ||
            (s'.bare == s.bare + {t} && t.amount != 0.0 && Live(s.world, KeyOf(t)) && !Charged(s.world.db, t))
    ensures HistoryOk(s')
  {
    if s'.bare != s.bare {
      AnsweredBare(s, t);
    }
  }

  lemma LookKeeps(cfg: Broker.Config, s: Sys, k: nat)
    requires Inv(cfg, s) && Enabled(cfg, s, Look(k))
    ensures Inv(cfg, Next(cfg, s, Look(k)))
  {
    var s' := Next(cfg, s, Look(k));
    WorkersTask(cfg, s, k);
    LookBare(s, s', TaskOf(s, k));
    MessagesStay(cfg, s, s');
    WorkerMoves(s, s', k, s'.workers[k]);
  }

  /** A transaction either fails and changes nothing, or leaves its row, its one row if it is new. */
  lemma CommitSettles(db: Db, t: Task)
    requires Booked(db)
    ensures
      var (db', out) := Apply(db, t);
      && db.ledger <= db'.ledger
      && (out != Ledger.Done(true) ==> db' == db)
      && (!out.Failed? ==> t.amount == 0.0 || Charged(db', t))
      && (out == Ledger.Done(true) ==> Exec(db, OpOf(t)) == (db', out) && NewRow(db, db', t))
  {
    var (db', out) := Apply(db, t);
    if out == Ledger.Done(true) {
      assert db'.ledger[|db.ledger|].requestId == t.requestId && db'.ledger[|db.ledger|].kind == KindOf(t);
      if t.SettleTask? {
        BalanceNotNegative(db, t.user);
        SettleSplitsCost(db, t.user, t.requestId, t.amount);
      } else {
        CommitMovesOneUser(db, OpOf(t));
      }
    }
  }

  predicate NewRow(db: Db, db': Db, t: Task) {
    && t.amount != 0.0 && !Charged(db, t)
    && |db'.ledger| == |db.ledger| + 1 && db.ledger <= db'.ledger && RowOf(db'.ledger[|db.ledger|], t)
  }

  lemma BalanceNotNegative(db: Db, user: int)
    requires Booked(db)
    ensures AccountOf(db, user).balance >= 0.0
  {
    if user in db.accounts {
      assert AccountBooked(db.ledger, user, db.accounts[user]);
    }
  }

  /** What is already logged stays so as the ledger, the log and the passed tasks grow. */
  lemma LogKept(ledger: seq<Row>, ledger': seq<Row>, log: seq<Op>, more: seq<Op>, passed: set<Task>, passed': set<Task>)
    requires ledger <= ledger' && passed <= passed' && Logged(ledger, log, passed)
    ensures OpsLogged(ledger', log, passed')
    ensures forall i :: 0 <= i < |ledger| && TaskRow(ledger'[i]) ==> RowLogged(ledger'[i], log + more, passed')
  {
    forall i | 0 <= i < |log| && TaskOp(log[i]) ensures OpLogged(ledger', log[i], passed') {
      assert OpLogged(ledger, log[i], passed);
      var t :| t in passed && log[i] == OpOf(t) && HasRow(ledger, KindOf(t), t.requestId);
      var j :| 0 <= j < |ledger| && ledger[j].kind == KindOf(t) && ledger[j].requestId == t.requestId;
      assert ledger'[j] == ledger[j];
    }
    forall i | 0 <= i < |ledger| && TaskRow(ledger'[i]) ensures RowLogged(ledger'[i], log + more, passed') {
      assert RowLogged(ledger[i], log, passed);
      var t :| t in passed && t.amount != 0.0 && OpOf(t) in log && RowOf(ledger[i], t);
      assert OpOf(t) in log + more;
    }
  }

  /** A logged transaction has its row, so a request without a row is not in the log. */
  lemma LoggedHasRow(ledger: seq<Row>, log: seq<Op>, passed: set<Task>, t: Task, i: nat)
    requires OpsLogged(ledger, log, passed) && i < |log| && SameRequest(log[i], OpOf(t))
    ensures HasRow(ledger, KindOf(t), t.requestId)
  {
    assert OpLogged(ledger, log[i], passed);
  }

  /** The row a task writes is logged, and the log stays one entry per request. */
  lemma TaskLogged(db: Db, db': Db, log: seq<Op>, passed: set<Task>, t: Task)
    requires Logged(db.ledger, log, passed) && NewRow(db, db', t)
    ensures Logged(db'.ledger, log + [OpOf(t)], passed + {t})
  {
    var l, l', log' := db.ledger, db'.ledger, log + [OpOf(t)];
    LogKept(l, l', log, [OpOf(t)], passed, passed + {t});
    assert OpOf(t) in log';
    assert RowLogged(l'[|l|], log', passed + {t});
    assert HasRow(l', KindOf(t), t.requestId) && OpLogged(l', OpOf(t), passed + {t});
    forall i | 0 <= i < |log| ensures !SameRequest(log[i], OpOf(t)) {
      if SameRequest(log[i], OpOf(t)) {
        LoggedHasRow(l, log, passed, t, i);
      }
    }
  }

  lemma CommitPassed(cfg: Broker.Config, s: Sys, k: nat, s': Sys)
    requires Inv(cfg, s) && Enabled(cfg, s, Commit(k)) && s' == Next(cfg, s, Commit(k))
    ensures HistoryOk(s') && Grown(s, s')
  {
    WorkersTask(cfg, s, k);
    LedgerMaterialised(s.log);
    CommitSettles(s.world.db, TaskOf(s, k));
    BareStays(s, s');
    RecordsStay(s, s');
    forall t | t in s.passed ensures t.amount == 0.0 || Charged(s'.world.db, t) {
      if Charged(s.world.db, t) {
        ChargedStays(s.world.db, s'.world.db, t);
      }
    }
  }

  lemma CommitLogged(cfg: Broker.Config, s: Sys, k: nat, s': Sys)
    requires Inv(cfg, s) && Enabled(cfg, s, Commit(k)) && s' == Next(cfg, s, Commit(k))
    ensures LogOk(s')
  {
    var t := TaskOf(s, k);
    var (db', out) := Apply(s.world.db, t);
    LedgerMaterialised(s.log);
    CommitSettles(s.world.db, t);
    if out == Ledger.Done(true) {
      RunSnoc(EMPTY_DB, s.log, OpOf(t));
      TaskLogged(s.world.db, db', s.log, s.passed, t);
    } else {
      LogKept(s.world.db.ledger, db'.ledger, s.log, [], s.passed, s'.passed);
      assert s.log + [] == s.log;
    }
  }

  lemma CommitKeeps(cfg: Broker.Config, s: Sys, k: nat)
    requires Inv(cfg, s) && Enabled(cfg, s, Commit(k))
    ensures Inv(cfg, Next(cfg, s, Commit(k)))
  {
    var s' := Next(cfg, s, Commit(k));
    CommitPassed(cfg, s, k, s');
    CommitLogged(cfg, s, k, s');
    MessagesStay(cfg, s, s');
    CommitWorker(cfg, s, k, s');
  }

  lemma CommitWorker(cfg: Broker.Config, s: Sys, k: nat, s': Sys)
    requires WorkersOk(s) && Enabled(cfg, s, Commit(k)) && s' == Next(cfg, s, Commit(k)) && Grown(s, s') && PassedOk(s')
    ensures WorkersOk(s')
  {
    assert s'.workers == s.workers[k := s'.workers[k]];
    assert WorkerOk(s', s'.workers[k]);
    WorkerMoves(s, s', k, s'.workers[k]);
  }

  lemma RecordExplained(s: Sys, s': Sys, t: Task)
    requires RecordsOk(s) && t in s.passed && Records(t) && s'.passed == s.passed
    requires s'.world.records.Keys <= s.world.records.Keys + {KeyOf(t)}
    ensures RecordsOk(s')
  {
    forall key | key in s'.world.records ensures exists t' :: t' in s'.passed && KeyOf(t') == key && Records(t') {
      if key != KeyOf(t) {
        var t' :| t' in s.passed && KeyOf(t') == key && Records(t');
      }
    }
  }

  lemma RecordKeeps(cfg: Broker.Config, s: Sys, k: nat)
    requires Inv(cfg, s) && Enabled(cfg, s, Record(k))
    ensures Inv(cfg, Next(cfg, s, Record(k)))
  {
    var s' := Next(cfg, s, Record(k));
    assert WorkerOk(s, s.workers[k]);
    RecordExplained(s, s', TaskOf(s, k));
    BareStays(s, s');
    PassedStays(s, s');
    MessagesStay(cfg, s, s');
    WorkerMoves(s, s', k, s'.workers[k]);
  }

  lemma DropKeeps(cfg: Broker.Config, s: Sys, k: nat)
    requires Inv(cfg, s) && Enabled(cfg, s, Drop(k))
    ensures Inv(cfg, Next(cfg, s, Drop(k)))
  {
    var s' := Next(cfg, s, Drop(k));
    assert WorkerOk(s, s.workers[k]);
    MessagesStay(cfg, s, s');
    HistoryStays(s, s');
    WorkerMoves(s, s', k, s'.workers[k]);
  }

  /** Starting, failing and dying touch nothing but the worker. */
  lemma QuietKeeps(cfg: Broker.Config, s: Sys, st: Step)
    requires Inv(cfg, s) && Enabled(cfg, s, st) && (st.Begin? || st.Error? || st.Die?)
    ensures Inv(cfg, Next(cfg, s, st))
  {
    var s' := Next(cfg, s, st);
    MessagesStay(cfg, s, s');
    HistoryStays(s, s');
    if st.Die? {
      WorkersStay(s, s');
    } else {
      if st.Error? {
        assert WorkerOk(s, s.workers[st.k]);
      }
      WorkerMoves(s, s', st.k, s'.workers[st.k]);
    }
  }

  lemma MessageAdvances(cfg: Broker.Config, s: Sys, msg: Message, b: Broker.Step)
    requires MessageOk(cfg, s.world.db, s.emitted, s.bare, msg)
    requires Broker.Enabled(cfg, msg.lineage, b) && cfg.maxRetry < Broker.INT32_MAX
    requires b.Handle? && b.ok ==> Done(s.world.db, s.bare, msg.task)
    ensures MessageOk(cfg, s.world.db, s.emitted, s.bare, msg.(lineage := Broker.Next(cfg, msg.lineage, b)))
  {
    Broker.NextKeeps(cfg, msg.lineage, b);
    SucceedsOnlyByHandler(cfg, msg.lineage, b);
  }

  lemma SucceedsOnlyByHandler(cfg: Broker.Config, l: Broker.Lineage, b: Broker.Step)
    requires Broker.Enabled(cfg, l, b)
    ensures Broker.Next(cfg, l, b).poison == l.poison
    ensures Broker.Next(cfg, l, b).succeeded <==> l.succeeded || (b.Handle? && b.ok)
  {
  }

  /** One message moves; the tables, L2 and the histories stay. */
  lemma AdvanceKeeps(cfg: Broker.Config, s: Sys, m: nat, b: Broker.Step, s': Sys)
    requires Inv(cfg, s) && cfg.maxRetry < Broker.INT32_MAX
    requires m < |s.messages| && Broker.Enabled(cfg, s.messages[m].lineage, b)
    requires b.Handle? && b.ok ==> Done(s.world.db, s.bare, s.messages[m].task)
    requires s' == Advance(cfg, s, m, b).(workers := s'.workers)
    requires forall k :: k in s'.workers ==> k in s.workers && s'.workers[k] == s.workers[k]
    ensures Inv(cfg, s')
  {
    MessageAdvances(cfg, s, s.messages[m], b);
    forall t | t in s'.enq.primary ensures exists n :: 0 <= n < |s'.messages| && s'.messages[n].task == t {
      var n :| 0 <= n < |s.messages| && s.messages[n].task == t;
      assert s'.messages[n].task == t;
    }
    HistoryStays(s, s');
    WorkersStay(s, s');
  }

  lemma ReturnKeeps(cfg: Broker.Config, s: Sys, k: nat, i: nat)
    requires Inv(cfg, s) && Enabled(cfg, s, Return(k, i)) && cfg.maxRetry < Broker.INT32_MAX
    ensures Inv(cfg, Next(cfg, s, Return(k, i)))
  {
    assert WorkerOk(s, s.workers[k]);
    AdvanceKeeps(cfg, s, s.workers[k].m, Broker.Handle(i, s.workers[k].phase == Finished), Next(cfg, s, Return(k, i)));
  }

  // ── the rest ───────────────────────────────────────────────────────────────

  /** Only a task writes settle and refund rows. */
  lemma OtherRow(db: Db, op: Op)
    requires !TaskOp(op)
    ensures
      var l, l' := db.ledger, Exec(db, op).0.ledger;
      l <= l' && |l'| <= |l| + 1 && (|l'| > |l| ==> !TaskRow(l'[|l|]))
  {
  }

  lemma OtherLogged(ledger: seq<Row>, ledger': seq<Row>, log: seq<Op>, op: Op, passed: set<Task>)
    requires Logged(ledger, log, passed) && !TaskOp(op)
    requires ledger <= ledger' && |ledger'| <= |ledger| + 1 && (|ledger'| > |ledger| ==> !TaskRow(ledger'[|ledger|]))
    ensures Logged(ledger', log + [op], passed)
  {
    LogKept(ledger, ledger', log, [op], passed, passed);
  }

  lemma OtherKeeps(cfg: Broker.Config, s: Sys, op: Op)
    requires Inv(cfg, s) && !TaskOp(op)
    ensures Inv(cfg, Next(cfg, s, Other(op)))
  {
    var s' := Next(cfg, s, Other(op));
    OtherRow(s.world.db, op);
    MessagesStay(cfg, s, s');
    HistoryStays(s, s');
    WorkersStay(s, s');
    RunSnoc(EMPTY_DB, s.log, op);
    OtherLogged(s.world.db.ledger, s'.world.db.ledger, s.log, op, s.passed);
  }

  lemma EnvironmentKeeps(cfg: Broker.Config, s: Sys, e: Event)
    requires Inv(cfg, s) && !e.Delivered?
    ensures Inv(cfg, s.(world := Delivery.Step(s.world, e)))
  {
    var s' := s.(world := Delivery.Step(s.world, e));
    assert s'.world.db == s.world.db && s'.world.records.Keys <= s.world.records.Keys;
    HistoryStays(s, s');
    MessagesStay(cfg, s, s');
    WorkersStay(s, s');
  }

  lemma WorkerStepKeeps(cfg: Broker.Config, s: Sys, st: Step)
    requires Inv(cfg, s) && Enabled(cfg, s, st) && cfg.maxRetry < Broker.INT32_MAX
    requires st.Begin? || st.Look? || st.Commit? || st.Record? || st.Drop? || st.Error? || st.Return? || st.Die?
    ensures Inv(cfg, Next(cfg, s, st))
  {
    match st
    case Look(k) => LookKeeps(cfg, s, k);
    case Commit(k) => CommitKeeps(cfg, s, k);
    case Record(k) => RecordKeeps(cfg, s, k);
    case Drop(k) => DropKeeps(cfg, s, k);
    case Return(k, i) => ReturnKeeps(cfg, s, k, i);
    case _ => QuietKeeps(cfg, s, st);
  }

  lemma NextKeeps(cfg: Broker.Config, s: Sys, st: Step)
    requires Inv(cfg, s) && Enabled(cfg, s, st) && cfg.maxRetry < Broker.INT32_MAX
    ensures Inv(cfg, Next(cfg, s, st))
  {
    match st
    case Enqueue(e) => EnqueueKeeps(cfg, s, e);
    case Consume(m, b) => AdvanceKeeps(cfg, s, m, b, Next(cfg, s, st));
    case Environment(e) => EnvironmentKeeps(cfg, s, e);
    case Other(op) => OtherKeeps(cfg, s, op);
    case _ => WorkerStepKeeps(cfg, s, st);
  }

  ghost predicate Run(cfg: Broker.Config, s: Sys, steps: seq<Step>, s': Sys)
    decreases |steps|
  {
    if steps == [] then s == s'
    else Enabled(cfg, s, steps[0]) && Run(cfg, Next(cfg, s, steps[0]), steps[1..], s')
  }

  lemma {:induction false} RunKeeps(cfg: Broker.Config, s: Sys, steps: seq<Step>, s': Sys)
    requires cfg.maxRetry < Broker.INT32_MAX && Inv(cfg, s) && Run(cfg, s, steps, s')
    ensures Inv(cfg, s')
    decreases |steps|
  {
    if steps != [] {
      NextKeeps(cfg, s, steps[0]);
      RunKeeps(cfg, Next(cfg, s, steps[0]), steps[1..], s');
    }
  }

  lemma InitOk(cfg: Broker.Config)
    ensures Inv(cfg, INIT)
  {
  }
}
