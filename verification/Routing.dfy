/** Where messages go once the topology stands: every registered type reaches one queue, and comes back to it
    from every bucket. */
module Routing {
  import opened Sequences
  import opened Buckets
  import opened Registry
  import opened Topology

  // ── what the plan contains ─────────────────────────────────────────────────

  predicate Bucketed(name: string, prefix: string, ds: seq<int>) {
    exists d :: d in ds && name == prefix + FormatBucket(d)
  }

  predicate BucketQueue(name: string, args: Args, prefix: string, ds: seq<int>, main: string) {
    exists d :: d in ds && name == prefix + FormatBucket(d) && args == Args(Some(DelayMS(d)), Some(main))
  }

  predicate BucketRoute(r: Route, exPrefix: string, qPrefix: string, ds: seq<int>) {
    exists d :: d in ds && r == Route(exPrefix + FormatBucket(d), "", qPrefix + FormatBucket(d))
  }

  predicate IsBusiness(name: string) {
    name == "task.critical" || name == "task.default" || name == "task.low"
  }

  lemma {:induction false} InBinds(main: string, name: string, types: seq<string>, d: Declaration)
    ensures d in Binds(main, name, types) <==>
            d.BindTo? && d.route.exchange == main && d.route.queue == name && d.route.key in types
  {
    if types != [] {
      InBinds(main, name, types[..|types| - 1], d);
      assert types == types[..|types| - 1] + [types[|types| - 1]];
    }
  }

  predicate QueueDeclared(d: Declaration, main: string, r: Indexes, n: string)
    requires n in LOGICAL_QUEUES
  {
    || d == QueueOf(BusinessQueue(n).value, Args(None, Some(DLX)))
    || (d.BindTo? && d.route.exchange == main && d.route.queue == BusinessQueue(n).value &&
        d.route.key in TypesOf(r, n))
  }

  lemma {:induction false} InQueues(main: string, r: Indexes, names: seq<string>, d: Declaration)
    requires forall n :: n in names ==> n in LOGICAL_QUEUES
    ensures d in QueueDecls(main, r, names) <==> exists n :: n in names && QueueDeclared(d, main, r, n)
  {
    if names != [] {
      var n, init := names[|names| - 1], names[..|names| - 1];
      assert names == init + [n] && n in LOGICAL_QUEUES;
      InQueues(main, r, init, d);
      InBinds(main, BusinessQueue(n).value, TypesOf(r, n), d);
      assert d in BusinessDecls(main, BusinessQueue(n).value, TypesOf(r, n)) <==> QueueDeclared(d, main, r, n);
      assert d in QueueDecls(main, r, names) <==>
          d in QueueDecls(main, r, init) || d in BusinessDecls(main, BusinessQueue(n).value, TypesOf(r, n));
      assert forall m :: m in names <==> m in init || m == n;
    }
  }

  lemma {:induction false} InBuckets(exPrefix: string, qPrefix: string, ds: seq<int>, main: string, d: Declaration)
    ensures d in AllBuckets(exPrefix, qPrefix, ds, main) <==>
            match d
            case ExchangeOf(n, f) => f && Bucketed(n, exPrefix, ds)
            case QueueOf(n, a) => BucketQueue(n, a, qPrefix, ds, main)
            case BindTo(r) => BucketRoute(r, exPrefix, qPrefix, ds)
  {
    if ds != [] {
      InBuckets(exPrefix, qPrefix, ds[..|ds| - 1], main, d);
      assert ds == ds[..|ds| - 1] + [ds[|ds| - 1]];
    }
  }

  lemma InBase(main: string, d: Declaration)
    ensures d.ExchangeOf? ==> (d in BaseDecls(main) <==> (d.name == main && !d.fanout) || (d.name == DLX && d.fanout))
    ensures d.QueueOf? ==> (d in BaseDecls(main) <==> d.name == DLQ && d.args == Args(None, None))
    ensures d.BindTo? ==> (d in BaseDecls(main) <==> d.route == Route(DLX, "", DLQ))
  {
  }

  predicate BusinessRoute(x: Route, main: string, r: Indexes) {
    x.exchange == main && exists n :: n in LOGICAL_QUEUES && x.queue == BusinessQueue(n).value && x.key in TypesOf(r, n)
  }

  lemma InBusiness(main: string, r: Indexes, d: Declaration)
    ensures d.ExchangeOf? ==> d !in QueueDecls(main, r, LOGICAL_QUEUES)
    ensures d.QueueOf? ==> (d in QueueDecls(main, r, LOGICAL_QUEUES) <==>
            IsBusiness(d.name) && d.args == Args(None, Some(DLX)))
    ensures d.BindTo? ==> (d in QueueDecls(main, r, LOGICAL_QUEUES) <==> BusinessRoute(d.route, main, r))
  {
    InQueues(main, r, LOGICAL_QUEUES, d);
    assert LOGICAL_QUEUES[0] in LOGICAL_QUEUES && LOGICAL_QUEUES[1] in LOGICAL_QUEUES &&
        LOGICAL_QUEUES[2] in LOGICAL_QUEUES;
    if d.QueueOf? && IsBusiness(d.name) && d.args == Args(None, Some(DLX)) {
      var n := if d.name == "task.critical" then CRITICAL else if d.name == "task.default" then DEFAULT else LOW;
      assert QueueDeclared(d, main, r, n);
    }
    if d.BindTo? && BusinessRoute(d.route, main, r) {
      var n :| n in LOGICAL_QUEUES && d.route.queue == BusinessQueue(n).value && d.route.key in TypesOf(r, n);
      assert QueueDeclared(d, main, r, n);
    }
  }

  predicate PlannedExchange(n: string, fanout: bool, main: string, retry: seq<int>, delay: seq<int>) {
    || (n == main && !fanout) || (n == DLX && fanout)
    || (fanout && (Bucketed(n, RETRY_EXCHANGE, retry) || Bucketed(n, DELAY_EXCHANGE, delay)))
  }

  /** The queue declarations of a plan, by family. */
  predicate PlannedQueue(n: string, a: Args, main: string, retry: seq<int>, delay: seq<int>) {
    || (n == DLQ && a == Args(None, None))
    || (IsBusiness(n) && a == Args(None, Some(DLX)))
    || BucketQueue(n, a, RETRY_QUEUE, retry, main) || BucketQueue(n, a, DELAY_QUEUE, delay, main)
  }

  predicate PlannedRoute(x: Route, main: string, r: Indexes, retry: seq<int>, delay: seq<int>) {
    || x == Route(DLX, "", DLQ) || BusinessRoute(x, main, r)
    || BucketRoute(x, RETRY_EXCHANGE, RETRY_QUEUE, retry) || BucketRoute(x, DELAY_EXCHANGE, DELAY_QUEUE, delay)
  }

  lemma InPlan(main: string, r: Indexes, retry: seq<int>, delay: seq<int>, d: Declaration)
    ensures d.ExchangeOf? ==>
            (d in Plan(main, r, retry, delay) <==> PlannedExchange(d.name, d.fanout, main, retry, delay))
    ensures d.QueueOf? ==> (d in Plan(main, r, retry, delay) <==> PlannedQueue(d.name, d.args, main, retry, delay))
    ensures d.BindTo? ==> (d in Plan(main, r, retry, delay) <==> PlannedRoute(d.route, main, r, retry, delay))
  {
    InBase(main, d);
    InBusiness(main, r, d);
    InBuckets(RETRY_EXCHANGE, RETRY_QUEUE, retry, main, d);
    InBuckets(DELAY_EXCHANGE, DELAY_QUEUE, delay, main, d);
  }

  // ── names that cannot meet ─────────────────────────────────────────────────

  lemma PrefixesApart(a: string, b: string)
    ensures RETRY_EXCHANGE + a != DELAY_EXCHANGE + b && RETRY_EXCHANGE + a != DLX && DELAY_EXCHANGE + b != DLX
    ensures RETRY_QUEUE + a != DELAY_QUEUE + b && RETRY_QUEUE + a != DLQ && DELAY_QUEUE + b != DLQ
    ensures !IsBusiness(RETRY_QUEUE + a) && !IsBusiness(DELAY_QUEUE + b)
  {
    assert (RETRY_EXCHANGE + a)[9] == 'r' && (DELAY_EXCHANGE + b)[10] == 'e' && (RETRY_EXCHANGE + a)[10] == 'e';
    assert (DELAY_EXCHANGE + b)[9] == 'd' && (DELAY_EXCHANGE + b)[10] == 'e' && DLX[10] == 'l' && DLX[9] == 'd';
    assert (RETRY_QUEUE + a)[0] == 'r' && (DELAY_QUEUE + b)[0] == 'd' && DLQ[0] == 't';
    assert "task.critical"[0] == 't' && "task.default"[0] == 't' && "task.low"[0] == 't';
  }

  lemma SuffixOf(prefix: string, a: string, b: string)
    ensures prefix + a == prefix + b <==> a == b
  {
    assert (prefix + a)[|prefix|..] == a && (prefix + b)[|prefix|..] == b;
  }

  // ── when the topology stands ───────────────────────────────────────────────

  /** Buckets of one list that share a name share their TTL. */
  ghost predicate SameTTL(ds: seq<int>) {
    forall a, b :: a in ds && b in ds && Cut(a) == Cut(b) && (a <= 0 <==> b <= 0) ==> DelayMS(a) == DelayMS(b)
  }

  /** What a configuration can check: the main exchange is not named like a fanout one, and no two buckets of
      a list fall together by name while differing in TTL. */
  ghost predicate Sound(main: string, retry: seq<int>, delay: seq<int>) {
    && main != DLX && !Bucketed(main, RETRY_EXCHANGE, retry) && !Bucketed(main, DELAY_EXCHANGE, delay)
    && SameTTL(retry) && SameTTL(delay)
  }

  lemma BucketQueuesAgree(prefix: string, ds: seq<int>, main: string)
    ensures SameTTL(ds) <==> forall n, a, b ::
            BucketQueue(n, a, prefix, ds, main) && BucketQueue(n, b, prefix, ds, main) ==> a == b
  {
    if SameTTL(ds) {
      forall n, a, b | BucketQueue(n, a, prefix, ds, main) && BucketQueue(n, b, prefix, ds, main) ensures a == b {
        var x :| x in ds && n == prefix + FormatBucket(x) && a == Args(Some(DelayMS(x)), Some(main));
        var y :| y in ds && n == prefix + FormatBucket(y) && b == Args(Some(DelayMS(y)), Some(main));
        SuffixOf(prefix, FormatBucket(x), FormatBucket(y));
        SameNameIff(x, y);
      }
    } else {
      var x, y :| x in ds && y in ds && Cut(x) == Cut(y) && (x <= 0 <==> y <= 0) && DelayMS(x) != DelayMS(y);
      SameNameIff(x, y);
      var n := prefix + FormatBucket(x);
      assert BucketQueue(n, Args(Some(DelayMS(x)), Some(main)), prefix, ds, main);
      assert BucketQueue(n, Args(Some(DelayMS(y)), Some(main)), prefix, ds, main);
    }
  }

  lemma SoundIsCompatible(main: string, r: Indexes, retry: seq<int>, delay: seq<int>, d: Declaration, e: Declaration)
    requires Sound(main, retry, delay) && d in Plan(main, r, retry, delay) && e in Plan(main, r, retry, delay)
    ensures !Clash(d, e)
  {
    InPlan(main, r, retry, delay, d);
    InPlan(main, r, retry, delay, e);
    if d.QueueOf? && e.QueueOf? && d.name == e.name {
      QueuesAgree(main, retry, delay, d.name, d.args, e.args);
    }
  }

  lemma FamiliesApart(n: string, a: Args, b: Args, main: string, retry: seq<int>, delay: seq<int>)
    ensures BucketQueue(n, a, RETRY_QUEUE, retry, main) ==>
            n != DLQ && !IsBusiness(n) && !BucketQueue(n, b, DELAY_QUEUE, delay, main)
    ensures BucketQueue(n, b, DELAY_QUEUE, delay, main) ==> n != DLQ && !IsBusiness(n)
  {
    forall x, y ensures RETRY_QUEUE + FormatBucket(x) != DELAY_QUEUE + FormatBucket(y) {
      PrefixesApart(FormatBucket(x), FormatBucket(y));
    }
    forall x ensures RETRY_QUEUE + FormatBucket(x) != DLQ && !IsBusiness(RETRY_QUEUE + FormatBucket(x))
                     && DELAY_QUEUE + FormatBucket(x) != DLQ && !IsBusiness(DELAY_QUEUE + FormatBucket(x)) {
      PrefixesApart(FormatBucket(x), FormatBucket(x));
    }
  }

  lemma QueuesAgree(main: string, retry: seq<int>, delay: seq<int>, n: string, a: Args, b: Args)
    requires SameTTL(retry) && SameTTL(delay)
    requires PlannedQueue(n, a, main, retry, delay) && PlannedQueue(n, b, main, retry, delay)
    ensures a == b
  {
    BucketQueuesAgree(RETRY_QUEUE, retry, main);
    BucketQueuesAgree(DELAY_QUEUE, delay, main);
    FamiliesApart(n, a, b, main, retry, delay);
    FamiliesApart(n, b, a, main, retry, delay);
  }

  lemma UnsoundClashes(main: string, r: Indexes, retry: seq<int>, delay: seq<int>)
    requires !Sound(main, retry, delay)
    ensures !Compatible(Plan(main, r, retry, delay))
  {
    InPlan(main, r, retry, delay, ExchangeOf(main, false));
    InPlan(main, r, retry, delay, ExchangeOf(main, true));
    if main == DLX || Bucketed(main, RETRY_EXCHANGE, retry) || Bucketed(main, DELAY_EXCHANGE, delay) {
      assert Clash(ExchangeOf(main, false), ExchangeOf(main, true));
    } else {
      var prefix, ds := if SameTTL(retry) then DELAY_QUEUE else RETRY_QUEUE, if SameTTL(retry) then delay else retry;
      BucketQueuesAgree(prefix, ds, main);
      var n, a, b :| BucketQueue(n, a, prefix, ds, main) && BucketQueue(n, b, prefix, ds, main) && a != b;
      InPlan(main, r, retry, delay, QueueOf(n, a));
      InPlan(main, r, retry, delay, QueueOf(n, b));
      assert Clash(QueueOf(n, a), QueueOf(n, b));
    }
  }

  /** On a blank broker the topology is declared in full exactly when the configuration is sound. */
  lemma TopologyStandsIff(main: string, r: Indexes, retry: seq<int>, delay: seq<int>)
    ensures DeclareAll(BLANK, Plan(main, r, retry, delay)).1 <==> Sound(main, retry, delay)
    ensures Sound(main, retry, delay) ==>
            Describes(DeclareAll(BLANK, Plan(main, r, retry, delay)).0, Plan(main, r, retry, delay))
  {
    var ds := Plan(main, r, retry, delay);
    PlanGrounded(main, r, retry, delay);
    DeclaredIff(ds);
    if Sound(main, retry, delay) {
      forall d, e | d in ds && e in ds ensures !Clash(d, e) {
        SoundIsCompatible(main, r, retry, delay, d, e);
      }
    } else {
      UnsoundClashes(main, r, retry, delay);
    }
  }

  /** Whole seconds and whole milliseconds below a second never fall together. */
  lemma ExactBucketsAreSafe(ds: seq<int>)
    requires forall d :: d in ds ==> Exact(d)
    ensures SameTTL(ds)
  {
  }

  /** The shipped configuration: retries after 5 s, 1 min and 5 min, delays of 5, 15 and 30 min. */
  lemma DefaultsAreSound()
    ensures Sound("cloudfog.tasks", [5 * SECOND, 60 * SECOND, 300 * SECOND],
            [300 * SECOND, 900 * SECOND, 1800 * SECOND])
  {
    forall a: string ensures RETRY_EXCHANGE + a != "cloudfog.tasks" && DELAY_EXCHANGE + a != "cloudfog.tasks" {
      assert (RETRY_EXCHANGE + a)[9] == 'r' && (DELAY_EXCHANGE + a)[9] == 'd' && "cloudfog.tasks"[9] == 't';
    }
    ExactBucketsAreSafe([5 * SECOND, 60 * SECOND, 300 * SECOND]);
    ExactBucketsAreSafe([300 * SECOND, 900 * SECOND, 1800 * SECOND]);
  }

  // ── where a message goes ───────────────────────────────────────────────────

  predicate Delivers(t: Tables, exchange: string, key: string, queue: string) {
    exists r :: r in t.routes && r.exchange == exchange && r.queue == queue && (FanoutIn(t, exchange) || r.key == key)
  }

  predicate FanoutIn(t: Tables, exchange: string) {
    exchange in t.exchanges && t.exchanges[exchange]
  }

  ghost predicate Stands(t: Tables, main: string, r: Indexes, retry: seq<int>, delay: seq<int>) {
    Sound(main, retry, delay) && Inverse(r) && Describes(t, Plan(main, r, retry, delay))
  }

  lemma Kinds(t: Tables, main: string, r: Indexes, retry: seq<int>, delay: seq<int>, x: string)
    requires Stands(t, main, r, retry, delay)
    ensures !FanoutIn(t, main)
    ensures x == DLX || Bucketed(x, RETRY_EXCHANGE, retry) || Bucketed(x, DELAY_EXCHANGE, delay) ==>
            FanoutIn(t, x) && x != main
  {
    InPlan(main, r, retry, delay, ExchangeOf(main, false));
    InPlan(main, r, retry, delay, ExchangeOf(x, true));
  }

  /** Published to the main exchange, a type reaches the queue it is registered for and no other, and an
      unregistered type, or one bound to a name outside the three queues, reaches none. */
  lemma MainRoutes(t: Tables, main: string, r: Indexes, retry: seq<int>, delay: seq<int>, ty: string, queue: string)
    requires Stands(t, main, r, retry, delay)
    ensures Delivers(t, main, ty, queue) <==> ty in r.byTy && BusinessQueue(r.byTy[ty]) == Some(queue)
  {
    Kinds(t, main, r, retry, delay, main);
    InPlan(main, r, retry, delay, BindTo(Route(main, ty, queue)));
    assert !BucketRoute(Route(main, ty, queue), RETRY_EXCHANGE, RETRY_QUEUE, retry);
    assert !BucketRoute(Route(main, ty, queue), DELAY_EXCHANGE, DELAY_QUEUE, delay);
    assert Delivers(t, main, ty, queue) <==> BindTo(Route(main, ty, queue)) in Plan(main, r, retry, delay);
    if ty in r.byTy && BusinessQueue(r.byTy[ty]) == Some(queue) {
      assert r.byTy[ty] in LOGICAL_QUEUES && ty in TypesOf(r, r.byTy[ty]);
    }
  }

  lemma BucketRouteOf(x: Route, exPrefix: string, qPrefix: string, ds: seq<int>, d: int)
    requires BucketRoute(x, exPrefix, qPrefix, ds) && x.exchange == exPrefix + FormatBucket(d)
    ensures x.queue == qPrefix + FormatBucket(d)
  {
    var y :| y in ds && x == Route(exPrefix + FormatBucket(y), "", qPrefix + FormatBucket(y));
    SuffixOf(exPrefix, FormatBucket(y), FormatBucket(d));
  }

  lemma NotBucketRoute(x: Route, d: int, retry: seq<int>, delay: seq<int>)
    ensures x.exchange == RETRY_EXCHANGE + FormatBucket(d) ==>
            !BucketRoute(x, DELAY_EXCHANGE, DELAY_QUEUE, delay) && x.exchange != DLX
    ensures x.exchange == DELAY_EXCHANGE + FormatBucket(d) ==>
            !BucketRoute(x, RETRY_EXCHANGE, RETRY_QUEUE, retry) && x.exchange != DLX
    ensures x.exchange == DLX ==>
            !BucketRoute(x, DELAY_EXCHANGE, DELAY_QUEUE, delay) && !BucketRoute(x, RETRY_EXCHANGE, RETRY_QUEUE, retry)
  {
    forall a, b ensures RETRY_EXCHANGE + FormatBucket(a) != DELAY_EXCHANGE + FormatBucket(b) &&
        RETRY_EXCHANGE + FormatBucket(a) != DLX && DELAY_EXCHANGE + FormatBucket(b) != DLX {
      PrefixesApart(FormatBucket(a), FormatBucket(b));
    }
  }

  /** A message published to a retry bucket, whatever its key, waits in that bucket's queue and no other, for
      the bucket's TTL, and leaves it for the main exchange. */
  lemma RetryRoutes(t: Tables, main: string, r: Indexes, retry: seq<int>, delay: seq<int>, d: int, key: string,
      queue: string)
    requires Stands(t, main, r, retry, delay) && d in retry
    ensures Delivers(t, RETRY_EXCHANGE + FormatBucket(d), key, queue) <==> queue == RETRY_QUEUE + FormatBucket(d)
    ensures var q := RETRY_QUEUE + FormatBucket(d); q in t.queues && t.queues[q] == Args(Some(DelayMS(d)), Some(main))
  {
    var ex, q := RETRY_EXCHANGE + FormatBucket(d), RETRY_QUEUE + FormatBucket(d);
    assert Bucketed(ex, RETRY_EXCHANGE, retry);
    Kinds(t, main, r, retry, delay, ex);
    assert BucketRoute(Route(ex, "", q), RETRY_EXCHANGE, RETRY_QUEUE, retry);
    InPlan(main, r, retry, delay, BindTo(Route(ex, "", q)));
    assert BucketQueue(q, Args(Some(DelayMS(d)), Some(main)), RETRY_QUEUE, retry, main);
    InPlan(main, r, retry, delay, QueueOf(q, Args(Some(DelayMS(d)), Some(main))));
    forall x | x in t.routes && x.exchange == ex ensures x.queue == q {
      InPlan(main, r, retry, delay, BindTo(x));
      NotBucketRoute(x, d, retry, delay);
      BucketRouteOf(x, RETRY_EXCHANGE, RETRY_QUEUE, retry, d);
    }
  }

  /** The same for a delay bucket. */
  lemma DelayRoutes(t: Tables, main: string, r: Indexes, retry: seq<int>, delay: seq<int>, d: int, key: string,
      queue: string)
    requires Stands(t, main, r, retry, delay) && d in delay
    ensures Delivers(t, DELAY_EXCHANGE + FormatBucket(d), key, queue) <==> queue == DELAY_QUEUE + FormatBucket(d)
    ensures var q := DELAY_QUEUE + FormatBucket(d); q in t.queues && t.queues[q] == Args(Some(DelayMS(d)), Some(main))
  {
    var ex, q := DELAY_EXCHANGE + FormatBucket(d), DELAY_QUEUE + FormatBucket(d);
    assert Bucketed(ex, DELAY_EXCHANGE, delay);
    Kinds(t, main, r, retry, delay, ex);
    assert BucketRoute(Route(ex, "", q), DELAY_EXCHANGE, DELAY_QUEUE, delay);
    InPlan(main, r, retry, delay, BindTo(Route(ex, "", q)));
    assert BucketQueue(q, Args(Some(DelayMS(d)), Some(main)), DELAY_QUEUE, delay, main);
    InPlan(main, r, retry, delay, QueueOf(q, Args(Some(DelayMS(d)), Some(main))));
    forall x | x in t.routes && x.exchange == ex ensures x.queue == q {
      InPlan(main, r, retry, delay, BindTo(x));
      NotBucketRoute(x, d, retry, delay);
      BucketRouteOf(x, DELAY_EXCHANGE, DELAY_QUEUE, delay, d);
    }
  }

  /** The exchange a queue's expired or rejected messages go to. */
  function DeadLetter(t: Tables, queue: string): Option<string> {
    if queue in t.queues then t.queues[queue].dlx else None
  }

  /** Whatever a business queue rejects is kept in the dead-letter queue and nowhere else. */
  lemma RejectedIsKept(t: Tables, main: string, r: Indexes, retry: seq<int>, delay: seq<int>, business: string,
      key: string, queue: string)
    requires Stands(t, main, r, retry, delay) && IsBusiness(business)
    ensures DeadLetter(t, business) == Some(DLX)
    ensures Delivers(t, DLX, key, queue) <==> queue == DLQ
  {
    InPlan(main, r, retry, delay, QueueOf(business, Args(None, Some(DLX))));
    Kinds(t, main, r, retry, delay, DLX);
    InPlan(main, r, retry, delay, BindTo(Route(DLX, "", DLQ)));
    forall x | x in t.routes && x.exchange == DLX ensures x.queue == DLQ {
      InPlan(main, r, retry, delay, BindTo(x));
      NotBucketRoute(x, 0, retry, delay);
    }
  }

  /** The round trip of a retried task: accepted for its queue, it is consumed from that queue's broker queue
      alone; republished to any retry bucket it waits there, expires to the main exchange, and comes back to
      the same queue and no other. */
  lemma RetriedTaskReturns(t: Tables, main: string, r: Indexes, retry: seq<int>, delay: seq<int>, task: Task, d: int,
      queue: string)
    requires Stands(t, main, r, retry, delay) && d in retry
    requires task.ty in r.byTy && !Conflicts(r, task.queue, task.ty) && BusinessQueue(task.queue).Some?
    ensures Delivers(t, main, task.ty, queue) <==> queue == BusinessQueue(task.queue).value
    ensures exists bucket :: Delivers(t, RETRY_EXCHANGE + FormatBucket(d), task.ty, bucket)
    ensures forall bucket :: Delivers(t, RETRY_EXCHANGE + FormatBucket(d), task.ty, bucket) ==>
              DeadLetter(t, bucket).Some? &&
                  (Delivers(t, DeadLetter(t, bucket).value, task.ty, queue) <==>
                  queue == BusinessQueue(task.queue).value)
  {
    MainRoutes(t, main, r, retry, delay, task.ty, queue);
    RetryRoutes(t, main, r, retry, delay, d, task.ty, RETRY_QUEUE + FormatBucket(d));
    forall bucket | Delivers(t, RETRY_EXCHANGE + FormatBucket(d), task.ty, bucket)
        ensures DeadLetter(t, bucket) == Some(main) {
      RetryRoutes(t, main, r, retry, delay, d, task.ty, bucket);
    }
  }
}
