/** The broker topology declared at start-up, and where a message published into it ends up. */
module Topology {
  import opened Sequences
  import opened Buckets
  import opened Registry

  const DLX := "cloudfog.dlx"
  const DLQ := "task.dlq"
  const RETRY_EXCHANGE := "cloudfog.retry."
  const DELAY_EXCHANGE := "cloudfog.delay."
  const RETRY_QUEUE := "retry."
  const DELAY_QUEUE := "delay."

  /** None: not one of the three logical queues. */
  function BusinessQueue(q: string): Option<string> {
    if q == CRITICAL then Some("task.critical")
    else if q == DEFAULT then Some("task.default")
    else if q == LOW then Some("task.low")
    else None
  }

  /** The three logical queues have a broker queue each, named after them. */
  lemma BusinessQueueIs(q: string)
    ensures BusinessQueue(q) == if q in [CRITICAL, DEFAULT, LOW] then Some("task." + q) else None
  {
    var names := [CRITICAL, DEFAULT, LOW];
    assert names[0] == CRITICAL && names[1] == DEFAULT && names[2] == LOW;
    assert "task." + "critical" == "task.critical" && "task." + "default" == "task.default";
    assert "task." + "low" == "task.low";
  }

  datatype Args = Args(ttl: Option<int>, dlx: Option<string>)

  datatype Route = Route(exchange: string, key: string, queue: string)

  datatype Declaration =
    | ExchangeOf(name: string, fanout: bool)
    | QueueOf(name: string, args: Args)
    | BindTo(route: Route)

  /** The broker's tables: exchange kinds, queue arguments, bindings. */
  datatype Tables = Tables(exchanges: map<string, bool>, queues: map<string, Args>, routes: set<Route>)

  const BLANK := Tables(map[], map[], {})

  /** Declarations are idempotent; one that contradicts an existing object is refused. */
  predicate Accepts(t: Tables, d: Declaration) {
    match d
    case ExchangeOf(n, f) => n in t.exchanges ==> t.exchanges[n] == f
    case QueueOf(n, a) => n in t.queues ==> t.queues[n] == a
    case BindTo(r) => r.exchange in t.exchanges && r.queue in t.queues
  }

  function Declare(t: Tables, d: Declaration): Tables {
    match d
    case ExchangeOf(n, f) => t.(exchanges := t.exchanges[n := f])
    case QueueOf(n, a) => t.(queues := t.queues[n := a])
    case BindTo(r) => t.(routes := t.routes + {r})
  }

  /** Declarations in order, up to the first refused one. */
  function DeclareAll(t: Tables, ds: seq<Declaration>): (Tables, bool) {
    if ds == [] then (t, true)
    else
      var (t', ok) := DeclareAll(t, ds[..|ds| - 1]);
      if !ok || !Accepts(t', ds[|ds| - 1]) then (t', false) else (Declare(t', ds[|ds| - 1]), true)
  }

  // ── the plan of declarations ───────────────────────────────────────────────

  function Binds(main: string, name: string, types: seq<string>): seq<Declaration> {
    if types == [] then []
    else Binds(main, name, types[..|types| - 1]) + [BindTo(Route(main, types[|types| - 1], name))]
  }

  function BusinessDecls(main: string, name: string, types: seq<string>): seq<Declaration> {
    [QueueOf(name, Args(None, Some(DLX)))] + Binds(main, name, types)
  }

  function BucketDecls(exPrefix: string, qPrefix: string, d: int, main: string): seq<Declaration> {
    var ex, q := exPrefix + FormatBucket(d), qPrefix + FormatBucket(d);
    [ExchangeOf(ex, true), QueueOf(q, Args(Some(DelayMS(d)), Some(main))), BindTo(Route(ex, "", q))]
  }

  function AllBuckets(exPrefix: string, qPrefix: string, ds: seq<int>, main: string): seq<Declaration> {
    if ds == [] then []
    else AllBuckets(exPrefix, qPrefix, ds[..|ds| - 1], main) + BucketDecls(exPrefix, qPrefix, ds[|ds| - 1], main)
  }

  function BaseDecls(main: string): seq<Declaration> {
    [ExchangeOf(main, false), ExchangeOf(DLX, true), QueueOf(DLQ, Args(None, None)), BindTo(Route(DLX, "", DLQ))]
  }

  const LOGICAL_QUEUES := [CRITICAL, DEFAULT, LOW]

  /** The business queues in order; a name without a broker queue would end the list. */
  function QueueDecls(main: string, r: Indexes, names: seq<string>): seq<Declaration>
    requires forall n :: n in names ==> n in LOGICAL_QUEUES
  {
    if names == [] then []
    else
      var n := names[|names| - 1];
      assert n in LOGICAL_QUEUES;
      QueueDecls(main, r, names[..|names| - 1]) + BusinessDecls(main, BusinessQueue(n).value, TypesOf(r, n))
  }

  function Plan(main: string, r: Indexes, retry: seq<int>, delay: seq<int>): seq<Declaration> {
    BaseDecls(main)
    + QueueDecls(main, r, LOGICAL_QUEUES)
    + AllBuckets(RETRY_EXCHANGE, RETRY_QUEUE, retry, main)
    + AllBuckets(DELAY_EXCHANGE, DELAY_QUEUE, delay, main)
  }

  // ── declaring it ───────────────────────────────────────────────────────────

  class Channel {
    var tables: Tables

    constructor (tables: Tables)
      ensures this.tables == tables
    {
      this.tables := tables;
    }

    method Declare1(d: Declaration) returns (ok: bool)
      modifies this
      ensures ok <==> Accepts(old(tables), d)
      ensures tables == if ok then Declare(old(tables), d) else old(tables)
    {
      ok := Accepts(tables, d);
      if ok {
        tables := Declare(tables, d);
      }
    }

    /** A literal group of declarations. */
    method DeclareGroup(ds: seq<Declaration>) returns (ok: bool)
      modifies this
      ensures (tables, ok) == DeclareAll(old(tables), ds)
    {
      ok := true;
      var i := 0;
      while i < |ds|
        invariant 0 <= i <= |ds|
        invariant (tables, true) == DeclareAll(old(tables), ds[..i])
      {
        DeclareSnoc(old(tables), ds[..i], ds[i]);
        assert ds[..i + 1] == ds[..i] + [ds[i]];
        ok := Declare1(ds[i]);
        if !ok {
          DeclareStops(old(tables), ds[..i + 1], ds[i + 1..]);
          assert ds == ds[..i + 1] + ds[i + 1..];
          return;
        }
        i := i + 1;
      }
      assert ds[..|ds|] == ds;
    }

    /** One business queue with a binding per registered type. */
    method DeclareBusiness(main: string, name: string, types: seq<string>) returns (ok: bool)
      modifies this
      ensures (tables, ok) == DeclareAll(old(tables), BusinessDecls(main, name, types))
    {
      var first := QueueOf(name, Args(None, Some(DLX)));
      DeclareJoin(old(tables), [first], Binds(main, name, types));
      ok := DeclareGroup([first]);
      if !ok {
        return;
      }
      label Declared:
      var i := 0;
      while i < |types|
        invariant 0 <= i <= |types|
        invariant (tables, true) == DeclareAll(old@Declared(tables), Binds(main, name, types[..i]))
      {
        var bind := BindTo(Route(main, types[i], name));
        assert types[..i + 1][..i] == types[..i];
        DeclareSnoc(old@Declared(tables), Binds(main, name, types[..i]), bind);
        ok := Declare1(bind);
        if !ok {
          BindsSplit(main, name, types, i + 1);
          DeclareStops(old@Declared(tables), Binds(main, name, types[..i + 1]), BindsFrom(main, name, types, i + 1));
          return;
        }
        i := i + 1;
      }
      assert types[..|types|] == types;
    }

    /** One fanout exchange and one TTL queue per bucket. */
    method DeclareTTLBuckets(exPrefix: string, qPrefix: string, ds: seq<int>, main: string) returns (ok: bool)
      modifies this
      ensures (tables, ok) == DeclareAll(old(tables), AllBuckets(exPrefix, qPrefix, ds, main))
    {
      ok := true;
      var i := 0;
      while i < |ds|
        invariant 0 <= i <= |ds|
        invariant (tables, true) == DeclareAll(old(tables), AllBuckets(exPrefix, qPrefix, ds[..i], main))
      {
        assert ds[..i + 1][..i] == ds[..i];
        DeclareJoin(old(tables), AllBuckets(exPrefix, qPrefix, ds[..i], main),
            BucketDecls(exPrefix, qPrefix, ds[i], main));
        ok := DeclareGroup(BucketDecls(exPrefix, qPrefix, ds[i], main));
        if !ok {
          BucketsStop(old(tables), exPrefix, qPrefix, ds, main, i + 1);
          return;
        }
        i := i + 1;
      }
      assert ds[..|ds|] == ds;
    }

    /** The business queues, each with its registered types. */
    method DeclareQueues(main: string, registry: Registry, names: seq<string>) returns (ok: bool)
      requires forall n :: n in names ==> n in LOGICAL_QUEUES
      modifies this
      ensures (tables, ok) == DeclareAll(old(tables), QueueDecls(main, registry.State(), names))
    {
      ok := true;
      var i := 0;
      while i < |names|
        invariant 0 <= i <= |names|
        invariant (tables, true) == DeclareAll(old(tables), QueueDecls(main, registry.State(), names[..i]))
      {
        assert names[..i + 1][..i] == names[..i] && names[i] in LOGICAL_QUEUES;
        var types := registry.Types(names[i]);
        var name := BusinessQueue(names[i]).value;
        DeclareJoin(old(tables), QueueDecls(main, registry.State(), names[..i]), BusinessDecls(main, name, types));
        ok := DeclareBusiness(main, name, types);
        if !ok {
          QueuesStop(old(tables), main, registry.State(), names, i + 1);
          return;
        }
        i := i + 1;
      }
      assert names[..|names|] == names;
    }

    /** The whole topology; an empty main name stands for the default one. */
    method EnsureTopology(main0: string, registry: Registry, retry: seq<int>, delay: seq<int>) returns (ok: bool)
      modifies this
      ensures (tables, ok) == DeclareAll(old(tables), Plan(MainOf(main0), registry.State(), retry, delay))
    {
      var main := MainOf(main0);
      Cascade(tables, BaseDecls(main), QueueDecls(main, registry.State(), LOGICAL_QUEUES),
              AllBuckets(RETRY_EXCHANGE, RETRY_QUEUE, retry, main),
                  AllBuckets(DELAY_EXCHANGE, DELAY_QUEUE, delay, main));
      ok := DeclareGroup(BaseDecls(main));
      if !ok {
        return;
      }
      ok := DeclareQueues(main, registry, LOGICAL_QUEUES);
      if !ok {
        return;
      }
      ok := DeclareTTLBuckets(RETRY_EXCHANGE, RETRY_QUEUE, retry, main);
      if !ok {
        return;
      }
      ok := DeclareTTLBuckets(DELAY_EXCHANGE, DELAY_QUEUE, delay, main);
    }
  }

  function MainOf(main: string): (r: string)
    ensures r != "" && (main != "" ==> r == main)
  {
    if main == "" then "cloudfog.tasks" else main
  }

  lemma DeclareSnoc(t: Tables, ds: seq<Declaration>, d: Declaration)
    ensures DeclareAll(t, ds + [d]) ==
            var (t', ok) := DeclareAll(t, ds);
            if !ok || !Accepts(t', d) then (t', false) else (Declare(t', d), true)
  {
    assert (ds + [d])[..|ds|] == ds;
  }

  lemma {:induction false} DeclareJoin(t: Tables, a: seq<Declaration>, b: seq<Declaration>)
    ensures DeclareAll(t, a + b) == var (t', ok) := DeclareAll(t, a); if ok then DeclareAll(t', b) else (t', false)
  {
    if b == [] {
      assert a + b == a;
    } else {
      DeclareJoin(t, a, b[..|b| - 1]);
      assert (a + b)[..|a + b| - 1] == a + b[..|b| - 1];
    }
  }

  lemma DeclareStops(t: Tables, a: seq<Declaration>, b: seq<Declaration>)
    requires !DeclareAll(t, a).1
    ensures DeclareAll(t, a + b) == DeclareAll(t, a)
  {
    DeclareJoin(t, a, b);
  }

  function BindsFrom(main: string, name: string, types: seq<string>, i: nat): seq<Declaration>
    requires i <= |types|
    decreases |types| - i
  {
    if i == |types| then [] else [BindTo(Route(main, types[i], name))] + BindsFrom(main, name, types, i + 1)
  }

  lemma {:induction false} BindsSplit(main: string, name: string, types: seq<string>, i: nat)
    requires i <= |types|
    ensures Binds(main, name, types) == Binds(main, name, types[..i]) + BindsFrom(main, name, types, i)
    decreases |types| - i
  {
    if i == |types| {
      assert types[..i] == types;
    } else {
      BindsSplit(main, name, types, i + 1);
      BindsSnoc(main, name, types, i);
      var before, bind, after :=
          Binds(main, name, types[..i]), [BindTo(Route(main, types[i], name))], BindsFrom(main, name, types, i + 1);
      assert (before + bind) + after == before + (bind + after);
    }
  }

  lemma BindsSnoc(main: string, name: string, types: seq<string>, i: nat)
    requires i < |types|
    ensures Binds(main, name, types[..i + 1]) == Binds(main, name, types[..i]) + [BindTo(Route(main, types[i], name))]
  {
    assert types[..i + 1][..i] == types[..i];
  }

  lemma {:induction false} BucketsStop(t: Tables, exPrefix: string, qPrefix: string, ds: seq<int>, main: string, i: nat)
    requires i <= |ds| && !DeclareAll(t, AllBuckets(exPrefix, qPrefix, ds[..i], main)).1
    ensures DeclareAll(t, AllBuckets(exPrefix, qPrefix, ds, main)) == DeclareAll(t,
            AllBuckets(exPrefix, qPrefix, ds[..i], main))
    decreases |ds| - i
  {
    if i == |ds| {
      assert ds[..i] == ds;
    } else {
      assert ds[..i + 1][..i] == ds[..i];
      DeclareStops(t, AllBuckets(exPrefix, qPrefix, ds[..i], main), BucketDecls(exPrefix, qPrefix, ds[i], main));
      BucketsStop(t, exPrefix, qPrefix, ds, main, i + 1);
    }
  }

  lemma {:induction false} QueuesStop(t: Tables, main: string, r: Indexes, names: seq<string>, i: nat)
    requires forall n :: n in names ==> n in LOGICAL_QUEUES
    requires i <= |names| && !DeclareAll(t, QueueDecls(main, r, names[..i])).1
    ensures DeclareAll(t, QueueDecls(main, r, names)) == DeclareAll(t, QueueDecls(main, r, names[..i]))
    decreases |names| - i
  {
    if i == |names| {
      assert names[..i] == names;
    } else {
      assert names[..i + 1][..i] == names[..i] && names[i] in LOGICAL_QUEUES;
      DeclareStops(t, QueueDecls(main, r, names[..i]),
          BusinessDecls(main, BusinessQueue(names[i]).value, TypesOf(r, names[i])));
      QueuesStop(t, main, r, names, i + 1);
    }
  }

  /** Declaring four groups, stopping at a failure, is declaring their concatenation. */
  lemma Cascade(t: Tables, a: seq<Declaration>, b: seq<Declaration>, c: seq<Declaration>, d: seq<Declaration>)
    ensures DeclareAll(t, a + b + c + d) ==
            var (t1, ok1) := DeclareAll(t, a); if !ok1 then (t1, false) else
            var (t2, ok2) := DeclareAll(t1, b); if !ok2 then (t2, false) else
            var (t3, ok3) := DeclareAll(t2, c); if !ok3 then (t3, false) else DeclareAll(t3, d)
  {
    DeclareJoin(t, a, b);
    DeclareJoin(t, a + b, c);
    DeclareJoin(t, a + b + c, d);
  }

  // ── when declaring succeeds, and what it leaves ────────────────────────────

  /** Two declarations of one object that disagree. */
  predicate Clash(d: Declaration, e: Declaration) {
    || (d.ExchangeOf? && e.ExchangeOf? && d.name == e.name && d.fanout != e.fanout)
    || (d.QueueOf? && e.QueueOf? && d.name == e.name && d.args != e.args)
  }

  ghost predicate Compatible(ds: seq<Declaration>) {
    forall d, e :: d in ds && e in ds ==> !Clash(d, e)
  }

  /** A binding comes after both of its ends. */
  ghost predicate Backed(known: seq<Declaration>, d: Declaration) {
    d.BindTo? ==>
      && (exists f :: ExchangeOf(d.route.exchange, f) in known)
      && (exists a :: QueueOf(d.route.queue, a) in known)
  }

  ghost predicate Grounded(known: seq<Declaration>, ds: seq<Declaration>) {
    ds == [] || (Grounded(known, ds[..|ds| - 1]) && Backed(known + ds[..|ds| - 1], ds[|ds| - 1]))
  }

  ghost predicate Describes(t: Tables, ds: seq<Declaration>) {
    && (forall n, f :: (n in t.exchanges && t.exchanges[n] == f) <==> ExchangeOf(n, f) in ds)
    && (forall n, a :: (n in t.queues && t.queues[n] == a) <==> QueueOf(n, a) in ds)
    && (forall r :: r in t.routes <==> BindTo(r) in ds)
  }

  lemma DescribesStep(t: Tables, ds: seq<Declaration>, d: Declaration)
    requires Describes(t, ds) && Compatible(ds) && Backed(ds, d)
    ensures Accepts(t, d) <==> Compatible(ds + [d])
    ensures Accepts(t, d) ==> Describes(Declare(t, d), ds + [d])
  {
    assert forall e :: e in ds + [d] <==> e in ds || e == d;
    match d
    case ExchangeOf(n, f) =>
      if !Accepts(t, d) {
        assert ExchangeOf(n, t.exchanges[n]) in ds;
        assert Clash(d, ExchangeOf(n, t.exchanges[n]));
      }
    case QueueOf(n, a) =>
      if !Accepts(t, d) {
        assert QueueOf(n, t.queues[n]) in ds;
        assert Clash(d, QueueOf(n, t.queues[n]));
      }
    case BindTo(r) =>
      var f :| ExchangeOf(r.exchange, f) in ds;
      var a :| QueueOf(r.queue, a) in ds;
      assert r.exchange in t.exchanges && r.queue in t.queues;
  }

  /** On a blank broker a list of declarations goes through exactly when no two of them disagree, and then the
      broker holds exactly what was declared. */
  lemma {:induction false} DeclaredIff(ds: seq<Declaration>)
    requires Grounded([], ds)
    ensures DeclareAll(BLANK, ds).1 <==> Compatible(ds)
    ensures DeclareAll(BLANK, ds).1 ==> Describes(DeclareAll(BLANK, ds).0, ds)
  {
    if ds != [] {
      var init, d := ds[..|ds| - 1], ds[|ds| - 1];
      assert ds == init + [d] && [] + init == init;
      DeclaredIff(init);
      if DeclareAll(BLANK, init).1 {
        DescribesStep(DeclareAll(BLANK, init).0, init, d);
      } else {
        var a, b :| a in init && b in init && Clash(a, b);
        assert a in ds && b in ds;
      }
    }
  }

  lemma GroundedOne(known: seq<Declaration>, d: Declaration)
    requires Backed(known, d)
    ensures Grounded(known, [d])
  {
    assert [d][..0] == [] && known + [] == known;
  }

  lemma {:induction false} GroundedAppend(known: seq<Declaration>, a: seq<Declaration>, b: seq<Declaration>)
    requires Grounded(known, a) && Grounded(known + a, b)
    ensures Grounded(known, a + b)
  {
    if b == [] {
      assert a + b == a;
    } else {
      GroundedAppend(known, a, b[..|b| - 1]);
      assert (a + b)[..|a + b| - 1] == a + b[..|b| - 1];
      assert known + (a + b[..|b| - 1]) == known + a + b[..|b| - 1];
    }
  }

  lemma {:induction false} BindsGrounded(known: seq<Declaration>, main: string, name: string, types: seq<string>)
    requires (exists f :: ExchangeOf(main, f) in known) && (exists a :: QueueOf(name, a) in known)
    ensures Grounded(known, Binds(main, name, types))
  {
    if types != [] {
      BindsGrounded(known, main, name, types[..|types| - 1]);
      var init := Binds(main, name, types[..|types| - 1]);
      var f :| ExchangeOf(main, f) in known;
      var a :| QueueOf(name, a) in known;
      assert ExchangeOf(main, f) in known + init && QueueOf(name, a) in known + init;
      assert Binds(main, name, types)[..|init|] == init;
    }
  }

  lemma {:induction false} QueuesGrounded(known: seq<Declaration>, main: string, r: Indexes, names: seq<string>)
    requires ExchangeOf(main, false) in known && forall n :: n in names ==> n in LOGICAL_QUEUES
    ensures Grounded(known, QueueDecls(main, r, names))
  {
    if names != [] {
      var n, init := names[|names| - 1], names[..|names| - 1];
      assert n in LOGICAL_QUEUES;
      QueuesGrounded(known, main, r, init);
      var before := QueueDecls(main, r, init);
      var name := BusinessQueue(n).value;
      var first := QueueOf(name, Args(None, Some(DLX)));
      GroundedOne(known + before, first);
      assert ExchangeOf(main, false) in known + before + [first] && first in known + before + [first];
      BindsGrounded(known + before + [first], main, name, TypesOf(r, n));
      GroundedAppend(known + before, [first], Binds(main, name, TypesOf(r, n)));
      GroundedAppend(known, before, BusinessDecls(main, name, TypesOf(r, n)));
    }
  }

  lemma BucketGrounded(known: seq<Declaration>, exPrefix: string, qPrefix: string, d: int, main: string)
    ensures Grounded(known, BucketDecls(exPrefix, qPrefix, d, main))
  {
    var b := BucketDecls(exPrefix, qPrefix, d, main);
    GroundedOne(known, b[0]);
    GroundedOne(known + [b[0]], b[1]);
    GroundedAppend(known, [b[0]], [b[1]]);
    assert b[0] in known + ([b[0]] + [b[1]]) && b[1] in known + ([b[0]] + [b[1]]);
    GroundedOne(known + ([b[0]] + [b[1]]), b[2]);
    GroundedAppend(known, [b[0]] + [b[1]], [b[2]]);
    assert b == [b[0]] + [b[1]] + [b[2]];
  }

  lemma {:induction false} BucketsGrounded(known: seq<Declaration>, exPrefix: string, qPrefix: string, ds: seq<int>,
      main: string)
    ensures Grounded(known, AllBuckets(exPrefix, qPrefix, ds, main))
  {
    if ds != [] {
      var init := ds[..|ds| - 1];
      BucketsGrounded(known, exPrefix, qPrefix, init, main);
      BucketGrounded(known + AllBuckets(exPrefix, qPrefix, init, main), exPrefix, qPrefix, ds[|ds| - 1], main);
      GroundedAppend(known, AllBuckets(exPrefix, qPrefix, init, main),
          BucketDecls(exPrefix, qPrefix, ds[|ds| - 1], main));
    }
  }

  lemma BaseGrounded(main: string)
    ensures Grounded([], BaseDecls(main))
  {
    var b := BaseDecls(main);
    assert b[..3][..2] == b[..2] && b[..2][..1] == b[..1] && b[..1][..0] == [];
    assert b[1] in [] + b[..3] && b[2] in [] + b[..3];
    assert Grounded([], b[..1]);
    assert Grounded([], b[..2]);
    assert Grounded([], b[..3]);
  }

  lemma PlanGrounded(main: string, r: Indexes, retry: seq<int>, delay: seq<int>)
    ensures Grounded([], Plan(main, r, retry, delay))
  {
    var a, b := BaseDecls(main), QueueDecls(main, r, LOGICAL_QUEUES);
    var c, d := AllBuckets(RETRY_EXCHANGE, RETRY_QUEUE, retry, main),
        AllBuckets(DELAY_EXCHANGE, DELAY_QUEUE, delay, main);
    BaseGrounded(main);
    assert [] + a == a && [] + (a + b) == a + b && [] + (a + b + c) == a + b + c;
    assert a[0] in a;
    QueuesGrounded(a, main, r, LOGICAL_QUEUES);
    GroundedAppend([], a, b);
    BucketsGrounded(a + b, RETRY_EXCHANGE, RETRY_QUEUE, retry, main);
    GroundedAppend([], a + b, c);
    BucketsGrounded(a + b + c, DELAY_EXCHANGE, DELAY_QUEUE, delay, main);
    GroundedAppend([], a + b + c, d);
  }
}
