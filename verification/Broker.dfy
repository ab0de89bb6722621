/**
 The broker and its consumers, one published message at a time.  A message's lineage is every copy of it:
 queued, fetched and not yet acknowledged, waiting in a retry bucket, or dead-lettered.  Consumers,
 connections and publishes may fail between any two steps.
 */
module Broker {
  import opened Sequences

  /** The x-retry-count header as the client library may present it. */
  datatype Header = Absent | Number(value: int) | Other

  const INT32_MAX := 0x7FFF_FFFF

  function ToInt32(v: int): int {
    if -INT32_MAX - 1 <= v <= INT32_MAX then v
    else
      var m := v % 0x1_0000_0000;
      if m > INT32_MAX then m - 0x1_0000_0000 else m
  }

  function RetryCount(h: Header): int {
    if h.Number? then ToInt32(h.value) else 0
  }

  /** What the header is worth: whatever number it carries, cut to 32 bits, so itself when it fits; else nothing. */
  lemma RetryCountReads(h: Header)
    ensures !h.Number? ==> RetryCount(h) == 0
    ensures h.Number? ==> -INT32_MAX - 1 <= RetryCount(h) <= INT32_MAX && (RetryCount(h) - h.value) % 0x1_0000_0000 == 0
    ensures h.Number? && -INT32_MAX - 1 <= h.value <= INT32_MAX ==> RetryCount(h) == h.value
  {
  }

  /** Bucket i for the i-th failure, the last bucket from then on, -1 without buckets. */
  function RetryBucket(buckets: seq<nat>, attempts: int): int {
    if |buckets| == 0 then -1
    else if attempts >= |buckets| then |buckets| - 1
    else attempts
  }

  datatype Config = Config(maxRetry: nat, buckets: seq<nat>)

  datatype Place = Queued | Fetched | Handled(ok: bool) | Republished | InBucket(bucket: nat) | Dead

  /** waited: seconds in buckets behind this copy, counted when it leaves one. */
  datatype Copy = Copy(header: Header, waited: nat, place: Place)

  /** poison: unparseable, or no handler is registered.  runs: handler calls so far.  disturbed: failed or
      unconfirmed republishes, and redeliveries of unacknowledged copies. */
  datatype Lineage = Lineage(poison: bool, copies: seq<Copy>, succeeded: bool, runs: nat, disturbed: nat)

  function Publish(poison: bool): Lineage {
    Lineage(poison, [Copy(Absent, 0, Queued)], false, 0, 0)
  }

  datatype Step =
    | Fetch(i: nat)
    | Reject(i: nat)
    | Handle(i: nat, ok: bool)
    | Ack(i: nat)
    | Exhaust(i: nat)
    | Republish(i: nat)
    | RepublishFail(i: nat, reached: bool)
    | Expire(i: nat)
    | Redeliver(i: nat)

  function CountOf(c: Copy): int { RetryCount(c.header) }

  predicate Retryable(cfg: Config, c: Copy) {
    CountOf(c) < cfg.maxRetry && RetryBucket(cfg.buckets, CountOf(c)) >= 0
  }

  predicate Enabled(cfg: Config, l: Lineage, st: Step) {
    && st.i < |l.copies|
    && var c := l.copies[st.i];
       match st
       case Fetch(_) => c.place == Queued
       case Reject(_) => c.place == Fetched && l.poison
       case Handle(_, _) => c.place == Fetched && !l.poison
       case Ack(_) => c.place == Handled(true) || c.place == Republished
       case Exhaust(_) => c.place == Handled(false) && !Retryable(cfg, c)
       case Republish(_) => c.place == Handled(false) && Retryable(cfg, c)
       case RepublishFail(_, _) => c.place == Handled(false) && Retryable(cfg, c)
       case Expire(_) => c.place.InBucket? && c.place.bucket < |cfg.buckets|
       case Redeliver(_) => c.place == Fetched || c.place.Handled? || c.place == Republished
  }

  function Move(l: Lineage, i: nat, p: Place): Lineage
    requires i < |l.copies|
  {
    l.(copies := l.copies[i := l.copies[i].(place := p)])
  }

  /** The copy a retry puts into its bucket. */
  function RetryCopy(cfg: Config, c: Copy): Copy
    requires Retryable(cfg, c)
  {
    Copy(Number(CountOf(c) + 1), c.waited, InBucket(RetryBucket(cfg.buckets, CountOf(c))))
  }

  function Next(cfg: Config, l: Lineage, st: Step): Lineage
    requires Enabled(cfg, l, st)
  {
    var c := l.copies[st.i];
    match st
    case Fetch(i) => Move(l, i, Fetched)
    case Reject(i) => Move(l, i, Dead)
    case Handle(i, ok) => Move(l, i, Handled(ok)).(runs := l.runs + 1, succeeded := l.succeeded || ok)
    case Ack(i) => l.(copies := RemoveAt(l.copies, i))
    case Exhaust(i) => Move(l, i, Dead)
    case Republish(i) => var l' := Move(l, i, Republished); l'.(copies := l'.copies + [RetryCopy(cfg, c)])
    case RepublishFail(i, reached) =>
      var l' := Move(l, i, Queued).(disturbed := l.disturbed + 1);
      if reached then l'.(copies := l'.copies + [RetryCopy(cfg, c)]) else l'
    case Expire(i) =>
      l.(copies := l.copies[i := c.(place := Queued, waited := c.waited + cfg.buckets[c.place.bucket])])
    case Redeliver(i) => Move(l, i, Queued).(disturbed := l.disturbed + 1)
  }

  /** Σ of the TTLs a message sits through over its first n retries. */
  function TotalWait(buckets: seq<nat>, n: nat): nat
    requires buckets != []
  {
    if n == 0 then 0 else TotalWait(buckets, n - 1) + buckets[RetryBucket(buckets, n - 1)]
  }

  /** A copy that still stands for the task: the rest are leftovers awaiting their acknowledgement. */
  predicate Carries(c: Copy) {
    c.place != Handled(true) && c.place != Republished
  }

  /** A copy has waited for all its retries, the one it is still waiting for excepted. */
  predicate WaitOk(cfg: Config, c: Copy)
    requires 0 <= CountOf(c)
  {
    if cfg.buckets == [] then CountOf(c) == 0 && c.waited == 0 && !c.place.InBucket?
    else if c.place.InBucket? then
      && CountOf(c) > 0 && c.place.bucket == RetryBucket(cfg.buckets, CountOf(c) - 1)
      && c.waited == TotalWait(cfg.buckets, CountOf(c) - 1)
    else c.waited == TotalWait(cfg.buckets, CountOf(c))
  }

  predicate CopyOk(cfg: Config, l: Lineage, c: Copy) {
    && 0 <= CountOf(c) <= cfg.maxRetry && WaitOk(cfg, c)
    && l.runs >= CountOf(c) +
        (if c.place.Handled? || c.place == Republished || (c.place == Dead && !l.poison) then 1 else 0)
    && (c.place == Dead ==> l.poison || cfg.buckets == [] || CountOf(c) == cfg.maxRetry)
  }

  /** Handler runs a copy and its retries can still cause. */
  function Potential(cfg: Config, c: Copy): nat
    requires 0 <= CountOf(c) <= cfg.maxRetry
  {
    match c.place
    case Republished => 0
    case Dead => 0
    case Handled(_) => cfg.maxRetry - CountOf(c)
    case _ => cfg.maxRetry - CountOf(c) + 1
  }

  function Potentials(cfg: Config, copies: seq<Copy>): seq<nat>
    requires forall c :: c in copies ==> 0 <= CountOf(c) <= cfg.maxRetry
  {
    seq(|copies|, i requires 0 <= i < |copies| => Potential(cfg, copies[i]))
  }

  predicate Inv(cfg: Config, l: Lineage) {
    && (forall c :: c in l.copies ==> CopyOk(cfg, l, c))
    && (l.succeeded || exists i :: 0 <= i < |l.copies| && Carries(l.copies[i]))
    && (forall i :: 0 <= i < |l.copies| && l.copies[i].place == Handled(true) ==> l.succeeded)
    && l.runs + Sum(Potentials(cfg, l.copies)) <= (cfg.maxRetry + 1) * (l.disturbed + 1)
  }

  lemma OkStays(cfg: Config, l: Lineage, l': Lineage, c: Copy)
    requires CopyOk(cfg, l, c) && l'.poison == l.poison && l'.runs >= l.runs
    ensures CopyOk(cfg, l', c)
  {
  }

  lemma RetryCopyOk(cfg: Config, l: Lineage, c: Copy)
    requires cfg.maxRetry < INT32_MAX && CopyOk(cfg, l, c) && Retryable(cfg, c) && c.place == Handled(false)
    ensures CountOf(RetryCopy(cfg, c)) == CountOf(c) + 1
    ensures CopyOk(cfg, l, RetryCopy(cfg, c))
  {
  }

  lemma MovedOk(cfg: Config, l: Lineage, st: Step)
    requires Enabled(cfg, l, st) && CopyOk(cfg, l, l.copies[st.i]) && !st.Ack?
    ensures CopyOk(cfg, Next(cfg, l, st), Next(cfg, l, st).copies[st.i])
  {
  }

  lemma CopiesStayOk(cfg: Config, l: Lineage, st: Step)
    requires cfg.maxRetry < INT32_MAX && (forall c :: c in l.copies ==> CopyOk(cfg, l, c)) && Enabled(cfg, l, st)
    ensures forall c :: c in Next(cfg, l, st).copies ==> CopyOk(cfg, Next(cfg, l, st), c)
  {
    var l' := Next(cfg, l, st);
    var c := l.copies[st.i];
    assert CopyOk(cfg, l, c);
    forall d | d in l.copies ensures CopyOk(cfg, l', d) {
      OkStays(cfg, l, l', d);
    }
    forall j | 0 <= j < |l'.copies| ensures CopyOk(cfg, l', l'.copies[j]) {
      if st.Ack? {
        assert l'.copies[j] in l.copies;
      } else if j == st.i {
        MovedOk(cfg, l, st);
      } else if j < |l.copies| {
        assert l'.copies[j] == l.copies[j];
      } else {
        RetryCopyOk(cfg, l, c);
        OkStays(cfg, l, l', RetryCopy(cfg, c));
      }
    }
  }

  lemma CarrierStays(cfg: Config, l: Lineage, st: Step)
    requires Inv(cfg, l) && Enabled(cfg, l, st)
    ensures var l' := Next(cfg, l, st); l'.succeeded || exists i :: 0 <= i < |l'.copies| && Carries(l'.copies[i])
  {
    var l' := Next(cfg, l, st);
    if !l'.succeeded {
      var k :| 0 <= k < |l.copies| && Carries(l.copies[k]);
      if st.Ack? {
        var k' := if k < st.i then k else k - 1;
        assert l'.copies[k'] == l.copies[k];
      } else if st.Republish? {
        assert Carries(l'.copies[|l.copies|]);
      } else if k != st.i {
        assert l'.copies[k] == l.copies[k];
      } else {
        assert Carries(l'.copies[k]);
      }
    }
  }

  lemma PotentialsAfter(cfg: Config, l: Lineage, l': Lineage, i: nat, extra: seq<Copy>)
    requires forall c :: c in l.copies ==> 0 <= CountOf(c) <= cfg.maxRetry
    requires forall c :: c in l'.copies ==> 0 <= CountOf(c) <= cfg.maxRetry
    requires i < |l.copies| && |extra| <= 1
    requires |l'.copies| == |l.copies| + |extra| && l'.copies == l.copies[i := l'.copies[i]] + extra
    ensures forall c :: c in extra ==> 0 <= CountOf(c) <= cfg.maxRetry
    ensures Sum(Potentials(cfg, l'.copies)) ==
            Sum(Potentials(cfg, l.copies)) - Potential(cfg, l.copies[i]) + Potential(cfg, l'.copies[i]) +
                (if extra == [] then 0 else Potential(cfg, extra[0]))
  {
    var p, q := Potentials(cfg, l.copies), Potential(cfg, l'.copies[i]);
    if extra != [] {
      assert l'.copies[|l.copies|] == extra[0];
    }
    var tail: seq<nat> := if extra == [] then [] else [Potential(cfg, extra[0])];
    assert Potentials(cfg, l'.copies) == p[i := q] + tail;
    SumAppend(p[i := q], tail);
    SumSplit(p, i, q);
  }

  ghost predicate Counted(cfg: Config, copies: seq<Copy>) {
    forall c :: c in copies ==> 0 <= CountOf(c) <= cfg.maxRetry
  }

  lemma OkIsCounted(cfg: Config, l: Lineage)
    requires forall c :: c in l.copies ==> CopyOk(cfg, l, c)
    ensures Counted(cfg, l.copies)
  {
    assert forall c :: c in l.copies ==> CopyOk(cfg, l, c);
  }

  /** runs plus potential */
  function Budget(cfg: Config, l: Lineage): nat
    requires Counted(cfg, l.copies)
  {
    l.runs + Sum(Potentials(cfg, l.copies))
  }

  lemma AckBudget(cfg: Config, l: Lineage, i: nat)
    requires Counted(cfg, l.copies) && Enabled(cfg, l, Ack(i))
    ensures Counted(cfg, Next(cfg, l, Ack(i)).copies)
    ensures Budget(cfg, Next(cfg, l, Ack(i))) <= Budget(cfg, l)
  {
    var l' := Next(cfg, l, Ack(i));
    var p := Potentials(cfg, l.copies);
    forall c | c in l'.copies ensures c in l.copies {}
    assert Potentials(cfg, l'.copies) == RemoveAt(p, i);
    SumSplit(p, i, 0);
  }

  /** Every step but an acknowledgement rewrites one copy and adds at most one. */
  lemma CopiesAfter(cfg: Config, l: Lineage, st: Step)
    requires Enabled(cfg, l, st) && !st.Ack?
    ensures
      var l' := Next(cfg, l, st);
      && |l.copies| <= |l'.copies| <= |l.copies| + 1
      && l'.copies == l.copies[st.i := l'.copies[st.i]] + l'.copies[|l.copies|..]
      && l.disturbed <= l'.disturbed <= l.disturbed + 1
  {
  }

  function Round(cfg: Config, disturbed: bool): nat {
    if disturbed then cfg.maxRetry + 1 else 0
  }

  /** One step never raises the budget, except that a disturbance may add one full round of retries. */
  lemma BudgetStep(cfg: Config, l: Lineage, st: Step)
    requires cfg.maxRetry < INT32_MAX && Counted(cfg, l.copies) && Enabled(cfg, l, st)
    requires Counted(cfg, Next(cfg, l, st).copies)
    ensures l.disturbed <= Next(cfg, l, st).disturbed <= l.disturbed + 1
    ensures Budget(cfg, Next(cfg, l, st)) <= Budget(cfg, l) + Round(cfg, Next(cfg, l, st).disturbed > l.disturbed)
  {
    if st.Ack? {
      AckBudget(cfg, l, st.i);
    } else {
      CopiesAfter(cfg, l, st);
      PotentialMove(cfg, l, st);
      BudgetSum(cfg, l, Next(cfg, l, st), st.i);
    }
  }

  lemma BudgetSum(cfg: Config, l: Lineage, l': Lineage, i: nat)
    requires Counted(cfg, l.copies) && Counted(cfg, l'.copies) && i < |l.copies| <= |l'.copies| <= |l.copies| + 1
    requires l'.copies == l.copies[i := l'.copies[i]] + l'.copies[|l.copies|..]
    ensures
      var extra := if |l'.copies| > |l.copies| then Potential(cfg, l'.copies[|l.copies|]) else 0;
      Budget(cfg, l') - l'.runs == Budget(cfg, l) - l.runs - Potential(cfg, l.copies[i]) +
          Potential(cfg, l'.copies[i]) + extra
  {
    PotentialsAfter(cfg, l, l', i, l'.copies[|l.copies|..]);
  }

  lemma PotentialMove(cfg: Config, l: Lineage, st: Step)
    requires cfg.maxRetry < INT32_MAX && Counted(cfg, l.copies) && Enabled(cfg, l, st)
    requires Counted(cfg, Next(cfg, l, st).copies) && !st.Ack?
    ensures
      var l' := Next(cfg, l, st);
      var extra := if |l'.copies| > |l.copies| then Potential(cfg, l'.copies[|l.copies|]) else 0;
      l'.runs + Potential(cfg, l'.copies[st.i]) + extra
        <= l.runs + Potential(cfg, l.copies[st.i]) + Round(cfg, l'.disturbed > l.disturbed)
  {
    assert 0 <= CountOf(l.copies[st.i]) <= cfg.maxRetry;
  }

  lemma RunsStayBounded(cfg: Config, l: Lineage, st: Step)
    requires cfg.maxRetry < INT32_MAX && Inv(cfg, l) && Enabled(cfg, l, st)
    ensures
      var l' := Next(cfg, l, st);
      Counted(cfg, l'.copies) && Budget(cfg, l') <= (cfg.maxRetry + 1) * (l'.disturbed + 1)
  {
    var l' := Next(cfg, l, st);
    CopiesStayOk(cfg, l, st);
    OkIsCounted(cfg, l);
    OkIsCounted(cfg, l');
    BudgetStep(cfg, l, st);
    assert (cfg.maxRetry + 1) * (l.disturbed + 2) == (cfg.maxRetry + 1) * (l.disturbed + 1) + (cfg.maxRetry + 1);
  }

  lemma NextKeeps(cfg: Config, l: Lineage, st: Step)
    requires cfg.maxRetry < INT32_MAX && Inv(cfg, l) && Enabled(cfg, l, st)
    ensures Inv(cfg, Next(cfg, l, st))
  {
    CopiesStayOk(cfg, l, st);
    CarrierStays(cfg, l, st);
    RunsStayBounded(cfg, l, st);
  }

  lemma PublishOk(cfg: Config, poison: bool)
    ensures Inv(cfg, Publish(poison))
  {
    var l := Publish(poison);
    assert l.copies[0] in l.copies && Carries(l.copies[0]);
    assert Potentials(cfg, l.copies) == [cfg.maxRetry + 1];
  }

  ghost predicate Run(cfg: Config, l: Lineage, steps: seq<Step>, l': Lineage)
    decreases |steps|
  {
    if steps == [] then l == l'
    else Enabled(cfg, l, steps[0]) && Run(cfg, Next(cfg, l, steps[0]), steps[1..], l')
  }

  lemma {:induction false} RunKeeps(cfg: Config, l: Lineage, steps: seq<Step>, l': Lineage)
    requires cfg.maxRetry < INT32_MAX && Inv(cfg, l) && Run(cfg, l, steps, l')
    ensures Inv(cfg, l')
    decreases |steps|
  {
    if steps != [] {
      NextKeeps(cfg, l, steps[0]);
      RunKeeps(cfg, Next(cfg, l, steps[0]), steps[1..], l');
    }
  }

  function Count(steps: seq<Step>, which: Step -> bool): nat {
    if steps == [] then 0 else (if which(steps[0]) then 1 else 0) + Count(steps[1..], which)
  }

  predicate Disturbs(st: Step) {
    st.RepublishFail? || st.Redeliver?
  }

  lemma {:induction false} CountersMove(cfg: Config, l: Lineage, steps: seq<Step>, l': Lineage)
    requires Run(cfg, l, steps, l')
    ensures l'.runs == l.runs + Count(steps, (st: Step) => st.Handle?)
    ensures l'.disturbed == l.disturbed + Count(steps, Disturbs)
    ensures l'.succeeded <==> l.succeeded || exists i :: Step.Handle(i, true) in steps
    decreases |steps|
  {
    if steps != [] {
      CountersMove(cfg, Next(cfg, l, steps[0]), steps[1..], l');
      assert steps == [steps[0]] + steps[1..];
    }
  }

  /** What a lineage records is what happened: each handler call, each failed or unconfirmed republish and each
      redelivery since it was published, and whether some call succeeded. */
  lemma CountersAre(cfg: Config, poison: bool, steps: seq<Step>, l: Lineage)
    requires Run(cfg, Publish(poison), steps, l)
    ensures l.runs == Count(steps, (st: Step) => st.Handle?) && l.disturbed == Count(steps, Disturbs)
    ensures l.succeeded <==> exists i :: Step.Handle(i, true) in steps
  {
    CountersMove(cfg, Publish(poison), steps, l);
  }

  predicate Standing(p: Place) {
    p == Queued || p == Fetched || p == Handled(false) || p.InBucket? || p == Dead
  }

  /** Until the handler has succeeded some copy is in the queue, in flight, in a bucket or in the DLQ. */
  lemma NoLoss(cfg: Config, poison: bool, steps: seq<Step>, l: Lineage)
    requires cfg.maxRetry < INT32_MAX && Run(cfg, Publish(poison), steps, l)
    ensures l.succeeded || exists i :: 0 <= i < |l.copies| && Standing(l.copies[i].place)
  {
    PublishOk(cfg, poison);
    RunKeeps(cfg, Publish(poison), steps, l);
    if !l.succeeded {
      var i :| 0 <= i < |l.copies| && Carries(l.copies[i]);
    }
  }

  /** Each disturbance can cost at most one more full round of retries; an undisturbed lineage runs its
      handler at most maxRetry + 1 times. */
  lemma RunsBounded(cfg: Config, poison: bool, steps: seq<Step>, l: Lineage)
    requires cfg.maxRetry < INT32_MAX && Run(cfg, Publish(poison), steps, l)
    ensures l.runs <= (cfg.maxRetry + 1) * (l.disturbed + 1)
    ensures l.disturbed == 0 ==> l.runs <= cfg.maxRetry + 1
  {
    PublishOk(cfg, poison);
    RunKeeps(cfg, Publish(poison), steps, l);
  }

  /** With retry buckets, a parseable task is dead-lettered only after maxRetry + 1 handler runs and the
      whole wait of maxRetry retries; undisturbed, after exactly that many runs. */
  lemma DeadLetteredLate(cfg: Config, steps: seq<Step>, l: Lineage, i: nat)
    requires cfg.maxRetry < INT32_MAX && cfg.buckets != [] && Run(cfg, Publish(false), steps, l)
    requires i < |l.copies| && l.copies[i].place == Dead
    ensures l.runs >= cfg.maxRetry + 1 && l.copies[i].waited == TotalWait(cfg.buckets, cfg.maxRetry)
    ensures l.disturbed == 0 ==> l.runs == cfg.maxRetry + 1
  {
    PublishOk(cfg, false);
    RunKeeps(cfg, Publish(false), steps, l);
    PoisonStays(cfg, Publish(false), steps, l);
    assert CopyOk(cfg, l, l.copies[i]);
  }

  /** In any run the n-th retry of a task waits in bucket min(n, k) - 1 of the k buckets, and what it has waited
      before is the TTLs of the buckets of its earlier retries. */
  lemma RetriesClimb(cfg: Config, poison: bool, steps: seq<Step>, l: Lineage, i: nat)
    requires cfg.maxRetry < INT32_MAX && Run(cfg, Publish(poison), steps, l)
    requires i < |l.copies| && l.copies[i].place.InBucket?
    ensures
      var n, k := CountOf(l.copies[i]), |cfg.buckets|;
      && 1 <= n <= cfg.maxRetry && k > 0
      && l.copies[i].place.bucket == (if n <= k then n else k) - 1
      && (n <= k ==> l.copies[i].waited == Sum(cfg.buckets[..n - 1]))
      && (n > k ==> l.copies[i].waited == Sum(cfg.buckets) + (n - 1 - k) * cfg.buckets[k - 1])
  {
    PublishOk(cfg, poison);
    RunKeeps(cfg, Publish(poison), steps, l);
    assert CopyOk(cfg, l, l.copies[i]);
    var n, k := CountOf(l.copies[i]), |cfg.buckets|;
    WaitClosedForm(cfg.buckets, n - 1);
    if n - 1 == k {
      assert cfg.buckets[..n - 1] == cfg.buckets;
    }
  }

  lemma {:induction false} PoisonStays(cfg: Config, l: Lineage, steps: seq<Step>, l': Lineage)
    requires Run(cfg, l, steps, l')
    ensures l'.poison == l.poison
    decreases |steps|
  {
    if steps != [] {
      PoisonStays(cfg, Next(cfg, l, steps[0]), steps[1..], l');
    }
  }

  /** Closed form of the total wait: the first min(n, k) buckets, then the last one over and over. */
  lemma {:induction false} WaitClosedForm(buckets: seq<nat>, n: nat)
    requires buckets != []
    ensures n <= |buckets| ==> TotalWait(buckets, n) == Sum(buckets[..n])
    ensures n > |buckets| ==> TotalWait(buckets, n) == Sum(buckets) + (n - |buckets|) * buckets[|buckets| - 1]
  {
    if n > 0 {
      WaitClosedForm(buckets, n - 1);
      if n <= |buckets| {
        assert buckets[..n] == buckets[..n - 1] + [buckets[n - 1]];
        SumAppend(buckets[..n - 1], [buckets[n - 1]]);
      } else {
        assert buckets[..|buckets|] == buckets;
        var k, last := |buckets|, buckets[|buckets| - 1];
        assert (n - k) * last == (n - 1 - k) * last + last;
      }
    }
  }

  /** Defaults of the critical queue, and the age at which a reservation counts as leaked, in seconds. */
  const DEFAULT_CONFIG := Config(10, [5, 60, 300])
  const RECLAIM_THRESHOLD := 2700

  /** The bucket waits of the ten default retries add up to 2465 s.  Counting the eleven handler runs as
      well, the whole window stays below the reclaim threshold exactly when each run takes at most 21 s,
      which the default handler timeout of 30 s does not ensure. */
  lemma DefaultWindow(run: nat)
    ensures TotalWait(DEFAULT_CONFIG.buckets, DEFAULT_CONFIG.maxRetry) == 2465
    ensures
      var waits, runs := TotalWait(DEFAULT_CONFIG.buckets, DEFAULT_CONFIG.maxRetry), DEFAULT_CONFIG.maxRetry + 1;
      waits + runs * run < RECLAIM_THRESHOLD <==> run <= 21
  {
    WaitClosedForm(DEFAULT_CONFIG.buckets, DEFAULT_CONFIG.maxRetry);
    assert DEFAULT_CONFIG.buckets[1..] == [60, 300] && [60, 300][1..] == [300];
  }

  // ── the consumer ───────────────────────────────────────────────────────────

  /** One worker's view of a message: the broker's side is the lineage it changes by ack, nack and publish. */
  class Worker {
    const cfg: Config
    var lineage: Lineage

    constructor (cfg: Config, lineage: Lineage)
      ensures this.cfg == cfg && this.lineage == lineage
    {
      this.cfg, this.lineage := cfg, lineage;
    }

    /** Nack: back to the queue, or through the dead-letter exchange. */
    method Nack(i: nat, requeue: bool)
      requires i < |lineage.copies|
      modifies this`lineage
      ensures lineage == Move(old(lineage), i, if requeue then Queued else Dead)
    {
      lineage := Move(lineage, i, if requeue then Queued else Dead);
    }

    method Acknowledge(i: nat)
      requires i < |lineage.copies|
      modifies this`lineage
      ensures lineage == old(lineage).(copies := RemoveAt(old(lineage).copies, i))
    {
      lineage := lineage.(copies := RemoveAt(lineage.copies, i));
    }

    /** Publish to a retry bucket; the broker may hold the message even when no confirm arrives. */
    method PublishRetry(copy: Copy, confirmed: bool, reached: bool) returns (ok: bool)
      modifies this`lineage
      ensures ok == confirmed
      ensures lineage == if confirmed || reached then old(lineage).(copies := old(lineage).copies + [copy])
              else old(lineage)
    {
      ok := confirmed;
      if confirmed || reached {
        lineage := lineage.(copies := lineage.copies + [copy]);
      }
    }

    /** After a failed run: exhausted retries go to the DLQ; otherwise the original is acknowledged only
        once its retry copy is confirmed, and requeued unchanged when it is not. */
    method RetryOrBury(i: nat, confirmed: bool, reached: bool)
      requires i < |lineage.copies| && lineage.copies[i].place == Handled(false)
      modifies this`lineage
      ensures lineage == AfterFailure(cfg, old(lineage), i, confirmed, reached)
    {
      var c := lineage.copies[i];
      var attempts := RetryCount(c.header);
      if attempts >= cfg.maxRetry {
        Nack(i, false);
        return;
      }
      var bucket := RetryBucket(cfg.buckets, attempts);
      if bucket < 0 {
        Nack(i, false);
        return;
      }
      var copy := Copy(Number(attempts + 1), c.waited, InBucket(bucket));
      ghost var h := lineage;
      var ok := PublishRetry(copy, confirmed, reached);
      if !ok {
        Nack(i, true);
        lineage := lineage.(disturbed := lineage.disturbed + 1);
        assert lineage.copies == Next(cfg, h, RepublishFail(i, reached)).copies;
        return;
      }
      Acknowledge(i);
      assert lineage.copies == Next(cfg, Next(cfg, h, Republish(i)), Ack(i)).copies;
    }

    /** One fetched delivery, to its end: success is acknowledged, a structural fault goes to the DLQ, a
        failed run is retried or buried. */
    method HandleDelivery(i: nat, handlerOk: bool, confirmed: bool, reached: bool)
      requires i < |lineage.copies| && lineage.copies[i].place == Fetched
      modifies this`lineage
      ensures lineage == Delivered(cfg, old(lineage), i, handlerOk, confirmed, reached)
    {
      if lineage.poison {
        Nack(i, false);
        return;
      }
      lineage := Move(lineage, i, Handled(handlerOk)).(runs := lineage.runs + 1, succeeded := lineage.succeeded ||
          handlerOk);
      if handlerOk {
        Acknowledge(i);
        return;
      }
      RetryOrBury(i, confirmed, reached);
    }
  }

  function AfterFailure(cfg: Config, l: Lineage, i: nat, confirmed: bool, reached: bool): Lineage
    requires i < |l.copies| && l.copies[i].place == Handled(false)
  {
    if !Retryable(cfg, l.copies[i]) then Next(cfg, l, Exhaust(i))
    else if confirmed then Next(cfg, Next(cfg, l, Republish(i)), Ack(i))
    else Next(cfg, l, RepublishFail(i, reached))
  }

  function Delivered(cfg: Config, l: Lineage, i: nat, handlerOk: bool, confirmed: bool, reached: bool): Lineage
    requires i < |l.copies| && l.copies[i].place == Fetched
  {
    if l.poison then Next(cfg, l, Reject(i))
    else
      var h := Next(cfg, l, Handle(i, handlerOk));
      if handlerOk then Next(cfg, h, Ack(i)) else AfterFailure(cfg, h, i, confirmed, reached)
  }

  /** What a whole delivery leaves behind: the copy is gone exactly when the task succeeded or its retry is
      safely in a bucket, it is dead exactly when it is poison or out of retries, and otherwise it is back
      in the queue; the other copies are untouched. */
  lemma DeliveryOutcome(cfg: Config, l: Lineage, i: nat, handlerOk: bool, confirmed: bool, reached: bool)
    requires i < |l.copies| && l.copies[i].place == Fetched
    ensures
      var c := l.copies[i];
      Delivered(cfg, l, i, handlerOk, confirmed, reached).copies ==
        if l.poison || (!handlerOk && !Retryable(cfg, c)) then l.copies[i := c.(place := Dead)]
        else if handlerOk then RemoveAt(l.copies, i)
        else if confirmed then RemoveAt(l.copies, i) + [RetryCopy(cfg, c)]
        else l.copies[i := c.(place := Queued)] + (if reached then [RetryCopy(cfg, c)] else [])
  {
    if !l.poison {
      var h := Next(cfg, l, Handle(i, handlerOk));
      assert CountOf(h.copies[i]) == CountOf(l.copies[i]);
      if handlerOk {
        assert RemoveAt(h.copies, i) == RemoveAt(l.copies, i);
      } else if Retryable(cfg, h.copies[i]) {
        assert RetryCopy(cfg, h.copies[i]) == RetryCopy(cfg, l.copies[i]);
      }
    }
  }

  /** A delivery by the worker is a run of the protocol, so everything proved of runs covers it. */
  lemma DeliveryIsARun(cfg: Config, l: Lineage, i: nat, handlerOk: bool, confirmed: bool, reached: bool)
      returns (steps: seq<Step>)
    requires i < |l.copies| && l.copies[i].place == Fetched
    ensures Run(cfg, l, steps, Delivered(cfg, l, i, handlerOk, confirmed, reached))
  {
    if l.poison {
      steps := [Reject(i)];
      OneStep(cfg, l, Reject(i));
    } else {
      var first := Step.Handle(i, handlerOk);
      var h := Next(cfg, l, first);
      if handlerOk {
        steps := [first, Ack(i)];
        TwoSteps(cfg, l, first, Ack(i));
      } else if !Retryable(cfg, h.copies[i]) {
        steps := [first, Exhaust(i)];
        TwoSteps(cfg, l, first, Exhaust(i));
      } else if confirmed {
        steps := [first, Republish(i), Ack(i)];
        ThreeSteps(cfg, l, first, Republish(i), Ack(i));
      } else {
        steps := [first, RepublishFail(i, reached)];
        TwoSteps(cfg, l, first, RepublishFail(i, reached));
      }
    }
  }

  lemma OneStep(cfg: Config, l: Lineage, a: Step)
    requires Enabled(cfg, l, a)
    ensures Run(cfg, l, [a], Next(cfg, l, a))
  {
  }

  lemma TwoSteps(cfg: Config, l: Lineage, a: Step, b: Step)
    requires Enabled(cfg, l, a) && Enabled(cfg, Next(cfg, l, a), b)
    ensures Run(cfg, l, [a, b], Next(cfg, Next(cfg, l, a), b))
  {
    assert [a, b][1..] == [b];
  }

  lemma ThreeSteps(cfg: Config, l: Lineage, a: Step, b: Step, c: Step)
    requires Enabled(cfg, l, a) && Enabled(cfg, Next(cfg, l, a), b) && Enabled(cfg, Next(cfg, Next(cfg, l, a), b), c)
    ensures Run(cfg, l, [a, b, c], Next(cfg, Next(cfg, Next(cfg, l, a), b), c))
  {
    assert [a, b, c][1..] == [b, c];
    TwoSteps(cfg, Next(cfg, l, a), b, c);
  }
}
